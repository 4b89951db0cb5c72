/** The text columns of a stored assignment, and the codec between a row and an assignment.

    `encodeTime` writes the date-time format of section 5.6 of RFC 3339 and is taken to be
    injective, as is the JSON encoding of an agent or an execution reference. */
module RowCodec {
  import opened Domain
  import opened AssignmentProofs

  /** A time column: the empty string, or a formatted instant. */
  datatype TimeText = NoTime | Stamped(t: Time)

  /** The execution reference column: the empty string, or a JSON object. */
  datatype RefText = NoRef | RefJson(ref: ExecutionRef)

  datatype AgentText = AgentJson(agent: DesiredAgent)

  datatype Row = Row(
    projectId: Id, id: Id, workItemId: Id, roleId: Id, rootId: Id, executionMode: Text,
    status: Status, desiredAgent: AgentText, claimedBy: Text,
    claimId: Id, claimedAt: TimeText, claimExpiresAt: TimeText,
    executionRef: RefText, contextSnapshotId: Id,
    createdAt: TimeText, updatedAt: TimeText, startedAt: TimeText, completedAt: TimeText)

  function EncodeTime(t: Time): TimeText {
    Stamped(t)
  }

  function EncodeOptionalTime(t: Time): TimeText {
    if t == ZERO_TIME then NoTime else EncodeTime(t)
  }

  function DecodeTime(c: TimeText): Result<Time> {
    if c.NoTime? then Err(Internal) else Ok(c.t)
  }

  function DecodeOptionalTime(c: TimeText): Time {
    if c.NoTime? then ZERO_TIME else c.t
  }

  function EncodeRef(ref: ExecutionRef): RefText {
    if ref == EMPTY_REF then NoRef else RefJson(ref)
  }

  function DecodeRef(c: RefText): ExecutionRef {
    if c.NoRef? then EMPTY_REF else c.ref
  }

  function ClaimId(claim: Option<ClaimLease>): Id {
    if claim.None? then Blank else claim.value.id
  }

  function ClaimedAt(claim: Option<ClaimLease>): TimeText {
    if claim.None? then NoTime else EncodeOptionalTime(claim.value.acquiredAt)
  }

  function ClaimExpiresAt(claim: Option<ClaimLease>): TimeText {
    if claim.None? then NoTime else EncodeOptionalTime(claim.value.expiresAt)
  }

  /** The columns written by an insert. */
  function Encode(a: Assignment): Row {
    Row(a.projectId, a.id, a.workItemId, a.roleId, a.rootId, a.executionMode, a.status,
        AgentJson(a.desiredAgent), a.claimedBy,
        ClaimId(a.claim), ClaimedAt(a.claim), ClaimExpiresAt(a.claim),
        EncodeRef(a.executionRef), a.contextSnapshotId,
        EncodeTime(a.createdAt), EncodeTime(a.updatedAt),
        EncodeOptionalTime(a.startedAt), EncodeOptionalTime(a.completedAt))
  }

  /** `scanAssignment`. */
  function Scan(r: Row): Result<Assignment> {
    if r.claimId != Blank && DecodeOptionalTime(r.claimedAt) == ZERO_TIME then Err(Internal)
    else if DecodeTime(r.createdAt).Err? || DecodeTime(r.updatedAt).Err? then Err(Internal)
    else Ok(Assignment(
      r.id, r.projectId, r.workItemId, r.roleId, r.rootId, r.executionMode, r.status,
      r.desiredAgent.agent, r.claimedBy,
      if r.claimId == Blank then None
      else Some(ClaimLease(r.claimId, DecodeOptionalTime(r.claimedAt), DecodeOptionalTime(r.claimExpiresAt))),
      DecodeRef(r.executionRef), r.contextSnapshotId,
      r.createdAt.t, r.updatedAt.t, DecodeOptionalTime(r.startedAt), DecodeOptionalTime(r.completedAt)))
  }

  /** An assignment survives the round trip through its row exactly when its claim, if any,
      has an id and an acquisition time; a valid claim state always does. */
  lemma CodecRoundTrip(a: Assignment)
    ensures Scan(Encode(a)) == Ok(a) <==>
      (a.claim.Some? ==> a.claim.value.id != Blank && a.claim.value.acquiredAt != ZERO_TIME)
    ensures Storable(a) ==> Scan(Encode(a)) == Ok(a) && RowOk(Encode(a))
  {
  }

  /** What every stored row satisfies: it scans; its claim could be written; and while it is
      queued the columns that the queued update tests are empty whenever they mean nothing. */
  predicate RowOk(r: Row) {
    && Scan(r).Ok?
    && Storable(Scan(r).value)
    && (r.status == Queued ==>
          r.executionRef != RefJson(EMPTY_REF) && r.startedAt != Stamped(ZERO_TIME)
            && r.completedAt != Stamped(ZERO_TIME))
  }
}
