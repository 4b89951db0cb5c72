/** The two independent status projections of a project: the activity view and the
    operations brief, and why they agree. */
module Projections {
  import opened Domain
  import opened AssignmentRules
  import opened StoreModel
  import opened Closeout
  import opened OperationsOrder
  import Runs
  import Integrity
  import Filing

  // ---------------------------------------------------------------- one assignment

  datatype Bucket = InActive | InBlocked | InCompleted | InOther

  predicate LeaseRanOut(a: Assignment, now: Time) {
    a.claim.Some? && a.claim.value.expiresAt != ZERO_TIME && a.claim.value.expiresAt <= now
  }

  /** `projectActivityBucket`. */
  function StatusBucket(status: Status): Bucket {
    match TrimStatus(status)
    case Claimed | Running | AwaitingReview => InActive
    case Queued | AwaitingApproval | Failed | Cancelled => InBlocked
    case Completed => InCompleted
    case _ => InOther
  }

  /** `projectActivityItem`: the override for an expired claim looks at the untrimmed status. */
  function ActivityBucket(a: Assignment, now: Time): Bucket {
    if a.status == Claimed && LeaseRanOut(a, now) then InBlocked else StatusBucket(a.status)
  }

  /** `projectAssignmentOperationItem`: trims first. */
  function AssignmentSeverity(a: Assignment, now: Time): Option<Severity> {
    match TrimStatus(a.status)
    case Queued | AwaitingApproval | Failed | Cancelled => Some(SeverityBlocked)
    case Claimed => if LeaseRanOut(a, now) then Some(SeverityBlocked) else Some(SeverityActive)
    case Running | AwaitingReview => Some(SeverityActive)
    case _ => None
  }

  predicate SameVerdict(a: Assignment, now: Time) {
    && (ActivityBucket(a, now) == InActive <==> AssignmentSeverity(a, now) == Some(SeverityActive))
    && (ActivityBucket(a, now) == InBlocked <==> AssignmentSeverity(a, now) == Some(SeverityBlocked))
  }

  /** The two views classify an assignment alike unless it is an expired claim whose status
      was stored with surrounding whitespace. */
  lemma SameVerdictExactlyWhen(a: Assignment, now: Time)
    ensures SameVerdict(a, now) <==> !(a.status.Padded? && TrimStatus(a.status) == Claimed && LeaseRanOut(a, now))
  {
  }

  /** The claim-state rule alone is enough. */
  lemma ClaimStateGivesSameVerdict(a: Assignment, now: Time)
    requires ClaimStateOk(a)
    ensures SameVerdict(a, now)
  {
  }

  /** On a valid leased claim both views follow the store: blocked exactly when the store
      would let the claim be recovered at that reading, active exactly when it would let the
      worker act. */
  lemma LeasedVerdict(a: Assignment, now: Time)
    requires ClaimStateOk(a) && a.status == Claimed && a.claim.Some?
    ensures ActivityBucket(a, now) == InBlocked <==> AllowsRecovery(a, a.claim.value.id, now)
    ensures ActivityBucket(a, now) == InActive <==> AllowsMutation(a, a.claim.value.id, now)
    ensures AssignmentSeverity(a, now) == Some(SeverityBlocked) <==> a.claim.value.expiresAt <= now
    ensures AssignmentSeverity(a, now) == Some(SeverityActive) <==> now < a.claim.value.expiresAt
  {
  }

  /** Everything else goes by the status: what waits for somebody or ended badly is blocked,
      what is claimed by a host, running or in review is active, and what is completed is
      listed as such by one view and not at all by the other. */
  lemma PlainVerdict(a: Assignment, now: Time)
    requires Runs.IsNamed(a.status) && !(a.status == Claimed && a.claim.Some?)
    ensures ActivityBucket(a, now) == InBlocked <==> a.status in {Queued, AwaitingApproval, Failed, Cancelled}
    ensures ActivityBucket(a, now) == InActive <==> a.status in {Claimed, Running, AwaitingReview}
    ensures ActivityBucket(a, now) == InCompleted <==> a.status == Completed
    ensures AssignmentSeverity(a, now) == Some(SeverityBlocked) <==>
      a.status in {Queued, AwaitingApproval, Failed, Cancelled}
    ensures AssignmentSeverity(a, now) == Some(SeverityActive) <==> a.status in {Claimed, Running, AwaitingReview}
    ensures AssignmentSeverity(a, now) == None <==> a.status == Completed
  {
  }

  /** In every reachable state and at any reading, a claimed assignment is blocked in either
      view exactly when the store would recover its claim. */
  lemma BlockedClaimsAreRecoverable(run: seq<Event>, i: nat, k: Key, now: Time)
    requires i <= |run| && k in At(run, i).assignments.rows && Runs.Item(run, k, i).status == Claimed
    ensures var a, s := Runs.Item(run, k, i), At(run, i);
      var recovered := a.claim.Some?
        && Transit(Memory, s, k.project, k.id, Recover(a.claim.value.id), now).reply.Assigned?;
      && (ActivityBucket(a, now) == InBlocked <==> recovered)
      && (AssignmentSeverity(a, now) == Some(SeverityBlocked) <==> recovered)
  {
    Runs.ProjectIsThere(run, i, k);
    hide StoreModel.At;
  }

  /** And active exactly when a host holds it, or the store would let its worker renew. */
  lemma ActiveClaimsAreRenewable(run: seq<Event>, i: nat, k: Key, now: Time, ttl: int)
    requires i <= |run| && k in At(run, i).assignments.rows && Runs.Item(run, k, i).status == Claimed
    requires Runs.RenewalsClear(run) && ttl > 0
    ensures var a, s := Runs.Item(run, k, i), At(run, i);
      var alive := a.claim.None?
                   || Transit(Memory, s, k.project, k.id, Renew(a.claim.value.id, ttl), now).reply.Assigned?;
      && (ActivityBucket(a, now) == InActive <==> alive)
      && (AssignmentSeverity(a, now) == Some(SeverityActive) <==> alive)
  {
    Runs.ProjectIsThere(run, i, k);
    Runs.ClaimsValidInEveryRun(run, i, k);
    hide StoreModel.At;
  }

  // ---------------------------------------------------------------- counting

  function Tally(assignments: seq<Assignment>, p: Assignment -> bool): nat {
    if assignments == [] then 0
    else Tally(assignments[..|assignments| - 1], p) + if p(assignments[|assignments| - 1]) then 1 else 0
  }

  lemma TallyPush(assignments: seq<Assignment>, a: Assignment, p: Assignment -> bool)
    ensures Tally(assignments + [a], p) == Tally(assignments, p) + if p(a) then 1 else 0
  {
  }

  lemma {:induction false} TallySame(assignments: seq<Assignment>, p: Assignment -> bool, q: Assignment -> bool)
    requires forall a :: a in assignments ==> p(a) == q(a)
    ensures Tally(assignments, p) == Tally(assignments, q)
  {
    if assignments != [] {
      var n := |assignments| - 1;
      assert assignments == assignments[..n] + [assignments[n]];
      TallySame(assignments[..n], p, q);
    }
  }

  function Bucketed(b: Bucket, now: Time): Assignment -> bool {
    a => ActivityBucket(a, now) == b
  }

  function Graded(v: Severity, now: Time): Assignment -> bool {
    a => AssignmentSeverity(a, now) == Some(v)
  }

  function WithStatus(status: Status): Assignment -> bool {
    (a: Assignment) => TrimStatus(a.status) == status
  }

  function ExpiredClaim(now: Time): Assignment -> bool {
    (a: Assignment) => a.status == Claimed && LeaseRanOut(a, now)
  }

  // ---------------------------------------------------------------- the activity view

  function InBucket(assignments: seq<Assignment>, b: Bucket, now: Time): seq<Assignment> {
    if assignments == [] then []
    else
      var a := assignments[|assignments| - 1];
      InBucket(assignments[..|assignments| - 1], b, now) + if ActivityBucket(a, now) == b then [a] else []
  }

  lemma {:induction false} InBucketCounts(assignments: seq<Assignment>, b: Bucket, now: Time)
    ensures |InBucket(assignments, b, now)| == Tally(assignments, Bucketed(b, now))
  {
    if assignments != [] {
      InBucketCounts(assignments[..|assignments| - 1], b, now);
    }
  }

  /** The status counts, keyed by the trimmed status. */
  datatype Activity = Activity(
    total: nat, active: nat, blocked: nat,
    queued: nat, claimed: nat, running: nat, awaitingApproval: nat, awaitingReview: nat,
    completed: nat, failed: nat, cancelled: nat, other: nat,
    activeItems: seq<Assignment>, blockedItems: seq<Assignment>,
    completedItems: seq<Assignment>, otherItems: seq<Assignment>)

  const NO_ACTIVITY := Activity(0, 0, 0, 0, 0, 0, 0, 0, 0, 0, 0, 0, [], [], [], [])

  /** `countProjectActivityStatus`. */
  function CountStatus(r: Activity, status: Status): Activity {
    match TrimStatus(status)
    case Queued => r.(queued := r.queued + 1)
    case Claimed => r.(claimed := r.claimed + 1)
    case Running => r.(running := r.running + 1)
    case AwaitingApproval => r.(awaitingApproval := r.awaitingApproval + 1)
    case AwaitingReview => r.(awaitingReview := r.awaitingReview + 1)
    case Completed => r.(completed := r.completed + 1)
    case Failed => r.(failed := r.failed + 1)
    case Cancelled => r.(cancelled := r.cancelled + 1)
    case _ => r.(other := r.other + 1)
  }

  /** The buckets split the listing, and the counts are conserved: what is active is what
      is claimed, running or in review less the expired claims, which are blocked. */
  predicate Accounts(r: Activity, assignments: seq<Assignment>, now: Time) {
    && r.total == |assignments|
    && r.active == Tally(assignments, Bucketed(InActive, now))
    && r.blocked == Tally(assignments, Bucketed(InBlocked, now))
    && r.total == |r.activeItems| + |r.blockedItems| + |r.completedItems| + |r.otherItems|
    && r.active + Tally(assignments, ExpiredClaim(now)) == r.claimed + r.running + r.awaitingReview
    && r.blocked == r.queued + r.awaitingApproval + r.failed + r.cancelled + Tally(assignments, ExpiredClaim(now))
    && r.completed == |r.completedItems| && r.other == |r.otherItems|
  }

  /** Each bucket lists its assignments in order. */
  predicate Buckets(r: Activity, assignments: seq<Assignment>, now: Time) {
    && r.activeItems == InBucket(assignments, InActive, now)
    && r.blockedItems == InBucket(assignments, InBlocked, now)
    && r.completedItems == InBucket(assignments, InCompleted, now)
    && r.otherItems == InBucket(assignments, InOther, now)
  }

  predicate StatusCounts(r: Activity, assignments: seq<Assignment>) {
    && r.queued == Tally(assignments, WithStatus(Queued))
    && r.claimed == Tally(assignments, WithStatus(Claimed))
    && r.running == Tally(assignments, WithStatus(Running))
    && r.awaitingApproval == Tally(assignments, WithStatus(AwaitingApproval))
    && r.awaitingReview == Tally(assignments, WithStatus(AwaitingReview))
    && r.completed == Tally(assignments, WithStatus(Completed))
    && r.failed == Tally(assignments, WithStatus(Failed))
    && r.cancelled == Tally(assignments, WithStatus(Cancelled))
  }

  function Tallied(r: Activity, a: Assignment, now: Time): Activity {
    var r := CountStatus(r.(total := r.total + 1), a.status);
    match ActivityBucket(a, now)
    case InActive => r.(active := r.active + 1, activeItems := r.activeItems + [a])
    case InBlocked => r.(blocked := r.blocked + 1, blockedItems := r.blockedItems + [a])
    case InCompleted => r.(completedItems := r.completedItems + [a])
    case InOther => r.(otherItems := r.otherItems + [a])
  }

  lemma TalliedAccounts(r: Activity, assignments: seq<Assignment>, a: Assignment, now: Time)
    requires Accounts(r, assignments, now)
    ensures Accounts(Tallied(r, a, now), assignments + [a], now)
  {
    TallyPush(assignments, a, Bucketed(InActive, now));
    TallyPush(assignments, a, Bucketed(InBlocked, now));
    TallyPush(assignments, a, ExpiredClaim(now));
  }

  lemma TalliedBuckets(r: Activity, assignments: seq<Assignment>, a: Assignment, now: Time)
    requires Buckets(r, assignments, now)
    ensures Buckets(Tallied(r, a, now), assignments + [a], now)
  {
    var more := assignments + [a];
    assert more[..|more| - 1] == assignments && more[|more| - 1] == a;
  }

  lemma TalliedCounts(r: Activity, assignments: seq<Assignment>, a: Assignment, now: Time)
    requires StatusCounts(r, assignments)
    ensures StatusCounts(Tallied(r, a, now), assignments + [a])
  {
    forall status: Status { TallyPush(assignments, a, WithStatus(status)); }
    hide Tally;
  }

  /** What the activity view reports about a listing. */
  predicate Reports(r: Activity, assignments: seq<Assignment>, now: Time) {
    Accounts(r, assignments, now) && Buckets(r, assignments, now) && StatusCounts(r, assignments)
  }

  lemma NothingToReport(now: Time)
    ensures Reports(NO_ACTIVITY, [], now)
  {
    forall p: Assignment -> bool
      ensures Tally([], p) == 0
    {
    }
    forall b
      ensures InBucket([], b, now) == []
    {
    }
    hide Tally, InBucket;
  }

  lemma ReportsNext(r: Activity, assignments: seq<Assignment>, a: Assignment, now: Time)
    requires Reports(r, assignments, now)
    ensures Reports(Tallied(r, a, now), assignments + [a], now)
  {
    hide Accounts, Buckets, StatusCounts, Tallied;
    TalliedAccounts(r, assignments, a, now);
    TalliedBuckets(r, assignments, a, now);
    TalliedCounts(r, assignments, a, now);
  }

  /** The loop of `ProjectActivity`. */
  method ProjectActivity(assignments: seq<Assignment>, now: Time) returns (r: Activity)
    ensures Reports(r, assignments, now)
  {
    hide Reports;
    NothingToReport(now);
    r := NO_ACTIVITY;
    for i := 0 to |assignments|
      invariant Reports(r, assignments[..i], now)
    {
      assert assignments[..i + 1] == assignments[..i] + [assignments[i]];
      ReportsNext(r, assignments[..i], assignments[i], now);
      r := Tallied(r, assignments[i], now);
    }
    assert assignments[..|assignments|] == assignments;
  }

  // ---------------------------------------------------------------- the operations brief

  datatype Candidate = Candidate(id: Id, pending: bool, updatedAt: Time)

  /** What is filed under one work item besides its assignments. */
  datatype Shelf = Shelf(evidence: seq<Evidence>, reviews: seq<Review>, handoffs: seq<Handoff>)

  /** What the closeout rules find lacking. */
  datatype Gaps = Gaps(missingEvidence: nat, reviewFollowUps: nat, openHandoffs: nat) {
    function Plus(g: Gaps): Gaps {
      Gaps(missingEvidence + g.missingEvidence, reviewFollowUps + g.reviewFollowUps, openHandoffs + g.openHandoffs)
    }

    function Total(): nat {
      missingEvidence + reviewFollowUps + openHandoffs
    }
  }

  const NO_GAPS := Gaps(0, 0, 0)

  datatype Brief = Brief(
    workItems: nat, assignments: nat, openWorkItems: nat, pendingCandidates: nat, active: nat, blocked: nat,
    gaps: Gaps, closeoutReady: nat, items: seq<OperationItem>, next: Option<OperationItem>)

  function Under(assignments: seq<Assignment>, workItemId: Id): (r: seq<Assignment>)
    ensures forall a :: a in r <==> a in assignments && a.workItemId == workItemId
  {
    if assignments == [] then []
    else
      var n := |assignments| - 1;
      assert assignments == assignments[..n] + [assignments[n]];
      Under(assignments[..n], workItemId) + if assignments[n].workItemId == workItemId then [assignments[n]] else []
  }

  lemma UnderPush(assignments: seq<Assignment>, a: Assignment, workItemId: Id)
    ensures Under(assignments + [a], workItemId) ==
      Under(assignments, workItemId) + if a.workItemId == workItemId then [a] else []
  {
  }

  function Group(groups: map<Id, seq<Assignment>>, id: Id): seq<Assignment> {
    if id in groups then groups[id] else []
  }

  /** The grouping loop. */
  method GroupByWorkItem(assignments: seq<Assignment>) returns (groups: map<Id, seq<Assignment>>)
    ensures forall id :: Group(groups, id) == Under(assignments, id)
  {
    groups := map[];
    for i := 0 to |assignments|
      invariant forall id :: Group(groups, id) == Under(assignments[..i], id)
    {
      var a := assignments[i];
      assert assignments[..i + 1] == assignments[..i] + [a];
      forall id { UnderPush(assignments[..i], a, id); }
      groups := groups[a.workItemId := Group(groups, a.workItemId) + [a]];
    }
    assert assignments[..|assignments|] == assignments;
  }

  function Across(workItems: seq<WorkItem>, assignments: seq<Assignment>, p: Assignment -> bool): nat {
    if workItems == [] then 0
    else
      var n := |workItems| - 1;
      Across(workItems[..n], assignments, p) + Tally(Under(assignments, workItems[n].id), p)
  }

  predicate DistinctIds(workItems: seq<WorkItem>) {
    forall i, j :: 0 <= i < j < |workItems| ==> workItems[i].id != workItems[j].id
  }

  predicate ListsId(workItems: seq<WorkItem>, id: Id) {
    exists i :: 0 <= i < |workItems| && workItems[i].id == id
  }

  lemma TallyUnderPush(assignments: seq<Assignment>, a: Assignment, workItemId: Id, p: Assignment -> bool)
    ensures Tally(Under(assignments + [a], workItemId), p) ==
      Tally(Under(assignments, workItemId), p) + if p(a) && a.workItemId == workItemId then 1 else 0
  {
    UnderPush(assignments, a, workItemId);
    var listed := Under(assignments, workItemId);
    TallyPush(listed, a, p);
    assert listed + [] == listed;
  }

  lemma ListsIdLast(workItems: seq<WorkItem>, id: Id)
    requires workItems != [] && DistinctIds(workItems)
    ensures var n := |workItems| - 1;
      && (ListsId(workItems, id) <==> ListsId(workItems[..n], id) || workItems[n].id == id)
      && !(ListsId(workItems[..n], id) && workItems[n].id == id)
  {
  }

  lemma {:induction false} AcrossNothing(workItems: seq<WorkItem>, p: Assignment -> bool)
    ensures Across(workItems, [], p) == 0
  {
    if workItems != [] {
      AcrossNothing(workItems[..|workItems| - 1], p);
    }
  }

  /** One more assignment counts once if its work item is listed, and not at all if not. */
  lemma {:induction false} AcrossPush(workItems: seq<WorkItem>, assignments: seq<Assignment>, a: Assignment,
                                      p: Assignment -> bool)
    requires DistinctIds(workItems)
    ensures Across(workItems, assignments + [a], p) ==
      Across(workItems, assignments, p) + if p(a) && ListsId(workItems, a.workItemId) then 1 else 0
  {
    if workItems != [] {
      var n := |workItems| - 1;
      AcrossPush(workItems[..n], assignments, a, p);
      ListsIdLast(workItems, a.workItemId);
      TallyUnderPush(assignments, a, workItems[n].id, p);
      hide ListsId, DistinctIds, Under, Tally;
    }
  }

  /** Counting work item by work item misses exactly the assignments without a listed one. */
  lemma {:induction false} Regrouped(workItems: seq<WorkItem>, assignments: seq<Assignment>, p: Assignment -> bool)
    requires DistinctIds(workItems)
    ensures Across(workItems, assignments, p) == Tally(assignments, a => p(a) && ListsId(workItems, a.workItemId))
  {
    if assignments == [] {
      AcrossNothing(workItems, p);
    } else {
      var n := |assignments| - 1;
      assert assignments == assignments[..n] + [assignments[n]];
      AcrossPush(workItems, assignments[..n], assignments[n], p);
      Regrouped(workItems, assignments[..n], p);
    }
  }

  /** One item a listed id. */
  function ItemsOf(w: WorkItem, kind: Kind, ids: seq<Id>): seq<OperationItem> {
    seq(|ids|, i requires 0 <= i < |ids| => OperationItem(kind, SeverityBlocked, w.id, ids[i], w.updatedAt))
  }

  /** The items of the assignments of one work item, in order. */
  function AssignmentItems(w: WorkItem, assignments: seq<Assignment>, now: Time): seq<OperationItem> {
    if assignments == [] then []
    else
      var a := assignments[|assignments| - 1];
      AssignmentItems(w, assignments[..|assignments| - 1], now)
      + match AssignmentSeverity(a, now)
        case None => []
        case Some(v) => [OperationItem(AssignmentItem, v, w.id, a.id, a.updatedAt)]
  }

  /** One item for each listed assignment that needs attention, pointing at it. */
  lemma {:induction false} AssignmentItemsMean(w: WorkItem, assignments: seq<Assignment>, now: Time, x: OperationItem)
    ensures x in AssignmentItems(w, assignments, now) <==> exists a ::
      && a in assignments && AssignmentSeverity(a, now) == Some(x.severity)
      && x == OperationItem(AssignmentItem, x.severity, w.id, a.id, a.updatedAt)
  {
    if assignments != [] {
      var n := |assignments| - 1;
      assert assignments == assignments[..n] + [assignments[n]];
      AssignmentItemsMean(w, assignments[..n], now, x);
      hide AssignmentSeverity;
    }
  }

  /** The inner loop over the assignments of one work item. */
  method BriefAssignments(w: WorkItem, assignments: seq<Assignment>, now: Time)
    returns (items: seq<OperationItem>, active: nat, blocked: nat)
    ensures items == AssignmentItems(w, assignments, now)
    ensures |items| == active + blocked
    ensures active == Tally(assignments, Graded(SeverityActive, now))
    ensures blocked == Tally(assignments, Graded(SeverityBlocked, now))
  {
    items, active, blocked := [], 0, 0;
    for i := 0 to |assignments|
      invariant items == AssignmentItems(w, assignments[..i], now) && |items| == active + blocked
      invariant active == Tally(assignments[..i], Graded(SeverityActive, now))
      invariant blocked == Tally(assignments[..i], Graded(SeverityBlocked, now))
    {
      assert assignments[..i + 1][..i] == assignments[..i];
      match AssignmentSeverity(assignments[i], now) {
        case None => continue;
        case Some(v) =>
          match v {
            case SeverityBlocked => blocked := blocked + 1;
            case SeverityActive => active := active + 1;
            case _ =>
          }
          items := items + [OperationItem(AssignmentItem, v, w.id, assignments[i].id, assignments[i].updatedAt)];
      }
    }
    assert assignments[..|assignments|] == assignments;
  }

  /** Every stored status is one of the eight names, possibly padded. */
  predicate AllListed(assignments: seq<Assignment>) {
    forall a :: a in assignments ==> StatusBucket(a.status) != InOther
  }

  /** What is lacking under one work item; a closed one lacks nothing. */
  ghost function GapsOf(w: WorkItem, assignments: seq<Assignment>, shelf: Shelf): Gaps {
    if Closed(w.status) then NO_GAPS
    else Gaps(|Unsupported(assignments, shelf.evidence)|,
              |FollowUpIds(shelf.reviews, shelf.handoffs, ById(assignments))|,
              |OpenIds(shelf.handoffs)|)
  }

  predicate Unassigned(w: WorkItem, assignments: seq<Assignment>) {
    !Closed(w.status) && assignments == []
  }

  /** The items of one work item, kind by kind. */
  ghost function ItemsUnder(w: WorkItem, assignments: seq<Assignment>, shelf: Shelf, now: Time): seq<OperationItem> {
    if Closed(w.status) then AssignmentItems(w, assignments, now)
    else
      AssignmentItems(w, assignments, now)
      + ItemsOf(w, EvidenceItem, Unsupported(assignments, shelf.evidence))
      + ItemsOf(w, FollowUpItem, FollowUpIds(shelf.reviews, shelf.handoffs, ById(assignments)))
      + ItemsOf(w, HandoffItem, OpenIds(shelf.handoffs))
      + if assignments == [] then [OperationItem(WorkItemItem, SeverityInfo, w.id, w.id, w.updatedAt)]
        else if MayClose(w, assignments, shelf.evidence, shelf.reviews, shelf.handoffs)
        then [OperationItem(ReadyItem, SeverityReady, w.id, w.id, w.updatedAt)] else []
  }

  /** What an open work item calls for besides attention to its assignments. */
  ghost predicate CallsFor(w: WorkItem, assignments: seq<Assignment>, shelf: Shelf, x: OperationItem) {
    match x.kind
    case EvidenceItem =>
      x.severity == SeverityBlocked
      && exists a :: a in assignments && a.id == x.subject && Bare(shelf.evidence)(a)
    case FollowUpItem =>
      x.severity == SeverityBlocked
      && exists v :: v in shelf.reviews && v.id == x.subject
                     && FollowUpBlocker(v, shelf.handoffs, ById(assignments)).Some?
    case HandoffItem =>
      x.severity == SeverityBlocked
      && exists h :: h in shelf.handoffs && h.id == x.subject && TrimHandoffStatus(h.status) == Open
    case ReadyItem =>
      x.severity == SeverityReady && x.subject == w.id && assignments != []
      && MayClose(w, assignments, shelf.evidence, shelf.reviews, shelf.handoffs)
    case WorkItemItem => x.severity == SeverityInfo && x.subject == w.id && assignments == []
    case _ => false
  }

  /** Exactly what is listed of a work item, and what each item points at. */
  lemma ItemsUnderMean(w: WorkItem, assignments: seq<Assignment>, shelf: Shelf, now: Time, x: OperationItem)
    ensures x in ItemsUnder(w, assignments, shelf, now) <==>
      || (exists a :: a in assignments && AssignmentSeverity(a, now) == Some(x.severity)
                      && x == OperationItem(AssignmentItem, x.severity, w.id, a.id, a.updatedAt))
      || (Trim(w.status) !in {WORK_DONE, WORK_CANCELLED} && x.workItemId == w.id && x.updatedAt == w.updatedAt
          && CallsFor(w, assignments, shelf, x))
  {
    AssignmentItemsMean(w, assignments, now, x);
    UnsupportedMeans(assignments, shelf.evidence, x.subject);
    OpenIdsMean(shelf.handoffs, x.subject);
    ItemsOfMean(w, EvidenceItem, Unsupported(assignments, shelf.evidence), x);
    ItemsOfMean(w, FollowUpItem, FollowUpIds(shelf.reviews, shelf.handoffs, ById(assignments)), x);
    ItemsOfMean(w, HandoffItem, OpenIds(shelf.handoffs), x);
    hide AssignmentItems, ItemsOf, Unsupported, OpenIds, Bare, FollowUpBlocker, MayClose, AssignmentSeverity, ById;
  }

  lemma ItemsOfMean(w: WorkItem, kind: Kind, ids: seq<Id>, x: OperationItem)
    ensures x in ItemsOf(w, kind, ids) <==>
      x.subject in ids && x == OperationItem(kind, SeverityBlocked, w.id, x.subject, w.updatedAt)
  {
    if x.subject in ids && x == OperationItem(kind, SeverityBlocked, w.id, x.subject, w.updatedAt) {
      var i :| 0 <= i < |ids| && ids[i] == x.subject;
      assert ItemsOf(w, kind, ids)[i] == x;
    }
  }

  datatype Findings = Findings(items: seq<OperationItem>, active: nat, blocked: nat, gaps: Gaps, ready: bool)

  /** The counts of one work item are right, and every item is counted once. */
  ghost predicate Found(f: Findings, w: WorkItem, assignments: seq<Assignment>, shelf: Shelf, now: Time) {
    && f.active == Tally(assignments, Graded(SeverityActive, now))
    && f.blocked == Tally(assignments, Graded(SeverityBlocked, now))
    && f.gaps == GapsOf(w, assignments, shelf)
    && f.items == ItemsUnder(w, assignments, shelf, now)
    && (f.ready <==> assignments != []
                     && MayClose(w, assignments, shelf.evidence, shelf.reviews, shelf.handoffs))
    && |f.items| == f.active + f.blocked + f.gaps.Total() + (if f.ready then 1 else 0)
                    + if Unassigned(w, assignments) then 1 else 0
  }

  /** The brief of one work item: its items, the counts, and whether it may be closed out.
      Every item is counted once, and with known statuses an open work item has an item. */
  method BriefWorkItem(w: WorkItem, assignments: seq<Assignment>, shelf: Shelf, now: Time)
    returns (f: Findings)
    ensures Found(f, w, assignments, shelf, now)
    ensures !Closed(w.status) && AllListed(assignments) ==> f.items != []
  {
    var readiness := Evaluate(w, assignments, shelf.evidence, shelf.reviews, shelf.handoffs);
    var items, active, blocked := BriefAssignments(w, assignments, now);
    if !Closed(w.status) && AllListed(assignments) && items == [] {
      SilentIsCompleted(w, assignments, now);
    }
    items := items + ItemsOf(w, EvidenceItem, readiness.missingEvidence);
    items := items + ItemsOf(w, FollowUpItem, readiness.followUps);
    items := items + ItemsOf(w, HandoffItem, readiness.openHandoffs);
    var gaps := Gaps(|readiness.missingEvidence|, |readiness.followUps|, |readiness.openHandoffs|);
    var ready := !Closed(w.status) && readiness.ready && |assignments| > 0;
    if ready {
      items := items + [OperationItem(ReadyItem, SeverityReady, w.id, w.id, w.updatedAt)];
    }
    if !Closed(w.status) && |assignments| == 0 {
      items := items + [OperationItem(WorkItemItem, SeverityInfo, w.id, w.id, w.updatedAt)];
    }
    if !Closed(w.status) && AllListed(assignments) && items == [] {
      NothingLeftIsReady(w, assignments, shelf);
    }
    f := Findings(items, active, blocked, gaps, ready);
  }

  lemma {:induction false} SilentIsCompleted(w: WorkItem, assignments: seq<Assignment>, now: Time)
    requires AllListed(assignments)
    ensures AssignmentItems(w, assignments, now) == [] <==> forall a :: a in assignments ==> IsCompleted(a)
  {
    if assignments != [] {
      var n := |assignments| - 1;
      var front, a := assignments[..n], assignments[n];
      assert assignments == front + [a];
      SilentIsCompleted(w, front, now);
      assert a in assignments;
      SilentWhenCompleted(a, now);
      hide StatusBucket, AssignmentSeverity, Closeout.IsCompleted;
      assert AssignmentItems(w, assignments, now) == [] <==> AssignmentItems(w, front, now) == [] && IsCompleted(a);
    }
  }

  lemma SilentWhenCompleted(a: Assignment, now: Time)
    requires StatusBucket(a.status) != InOther
    ensures AssignmentSeverity(a, now).None? <==> IsCompleted(a)
  {
  }

  /** Completed work with nothing missing, no open handoff and no follow-up may be closed. */
  lemma NothingLeftIsReady(w: WorkItem, assignments: seq<Assignment>, shelf: Shelf)
    requires !Closed(w.status)
    requires forall a :: a in assignments ==> IsCompleted(a)
    requires GapsOf(w, assignments, shelf) == NO_GAPS
    ensures MayClose(w, assignments, shelf.evidence, shelf.reviews, shelf.handoffs)
  {
    UnsupportedEmpty(assignments, shelf.evidence);
    OpenIdsEmpty(shelf.handoffs);
    forall v | v in shelf.reviews && NeedsFollowUp(v)
      ensures Settled(v, assignments, shelf.handoffs)
    {
      assert v.id !in FollowUpIds(shelf.reviews, shelf.handoffs, ById(assignments));
      UnblockedIsSettled(v, assignments, shelf.handoffs);
    }
  }

  function ShelfOf(shelves: map<Id, Shelf>, id: Id): Shelf {
    if id in shelves then shelves[id] else Shelf([], [], [])
  }

  function OpenCount(workItems: seq<WorkItem>): nat {
    if workItems == [] then 0
    else
      var n := |workItems| - 1;
      OpenCount(workItems[..n]) + if Closed(workItems[n].status) then 0 else 1
  }

  ghost function ReadyCount(workItems: seq<WorkItem>, assignments: seq<Assignment>, shelves: map<Id, Shelf>): nat {
    if workItems == [] then 0
    else
      var n := |workItems| - 1;
      var w := workItems[n];
      var shelf := ShelfOf(shelves, w.id);
      ReadyCount(workItems[..n], assignments, shelves)
      + if Under(assignments, w.id) != []
          && MayClose(w, Under(assignments, w.id), shelf.evidence, shelf.reviews, shelf.handoffs)
        then 1 else 0
  }

  ghost function GapsAcross(workItems: seq<WorkItem>, assignments: seq<Assignment>, shelves: map<Id, Shelf>): Gaps {
    if workItems == [] then NO_GAPS
    else
      var n := |workItems| - 1;
      var w := workItems[n];
      GapsAcross(workItems[..n], assignments, shelves)
      .Plus(GapsOf(w, Under(assignments, w.id), ShelfOf(shelves, w.id)))
  }

  ghost function ItemsAcross(workItems: seq<WorkItem>, assignments: seq<Assignment>, shelves: map<Id, Shelf>, now: Time)
    : seq<OperationItem>
  {
    if workItems == [] then []
    else
      var n := |workItems| - 1;
      var w := workItems[n];
      ItemsAcross(workItems[..n], assignments, shelves, now)
      + ItemsUnder(w, Under(assignments, w.id), ShelfOf(shelves, w.id), now)
  }

  function UnassignedCount(workItems: seq<WorkItem>, assignments: seq<Assignment>): nat {
    if workItems == [] then 0
    else
      var n := |workItems| - 1;
      UnassignedCount(workItems[..n], assignments)
      + if Unassigned(workItems[n], Under(assignments, workItems[n].id)) then 1 else 0
  }

  function PendingItems(candidates: seq<Candidate>): seq<OperationItem> {
    if candidates == [] then []
    else
      var c := candidates[|candidates| - 1];
      PendingItems(candidates[..|candidates| - 1])
      + if c.pending then [OperationItem(CandidateItem, SeverityAction, Blank, c.id, c.updatedAt)] else []
  }

  /** One item for each pending candidate, pointing at it. */
  lemma {:induction false} PendingItemsMean(candidates: seq<Candidate>, x: OperationItem)
    ensures x in PendingItems(candidates) <==>
      exists c :: c in candidates && c.pending
        && x == OperationItem(CandidateItem, SeverityAction, Blank, c.id, c.updatedAt)
    ensures |PendingItems(candidates)| == Count(candidates, (c: Candidate) => c.pending)
  {
    if candidates != [] {
      var n := |candidates| - 1;
      assert candidates == candidates[..n] + [candidates[n]];
      PendingItemsMean(candidates[..n], x);
      CountNext(candidates, (c: Candidate) => c.pending);
    }
  }

  method BriefCandidates(candidates: seq<Candidate>) returns (items: seq<OperationItem>)
    ensures items == PendingItems(candidates)
  {
    items := [];
    for i := 0 to |candidates|
      invariant items == PendingItems(candidates[..i])
    {
      assert candidates[..i + 1][..i] == candidates[..i];
      if !candidates[i].pending {
        continue;
      }
      var c := candidates[i];
      items := items + [OperationItem(CandidateItem, SeverityAction, Blank, c.id, c.updatedAt)];
    }
    assert candidates[..|candidates|] == candidates;
  }

  /** No open work item among those listed. */
  predicate AllClosed(workItems: seq<WorkItem>) {
    forall w :: w in workItems ==> Closed(w.status)
  }

  lemma NoneIsAllClosed(workItems: seq<WorkItem>)
    ensures AllClosed(workItems[..0])
  {
  }

  lemma AllClosedPush(workItems: seq<WorkItem>, i: nat)
    requires i < |workItems|
    ensures AllClosed(workItems[..i]) && Closed(workItems[i].status) ==> AllClosed(workItems[..i + 1])
  {
  }

  lemma ListedUnder(assignments: seq<Assignment>, workItemId: Id)
    ensures AllListed(assignments) ==> AllListed(Under(assignments, workItemId))
  {
  }

  /** The counts of the brief, each over the whole listing. */
  ghost predicate Counted(b: Brief, workItems: seq<WorkItem>, assignments: seq<Assignment>, shelves: map<Id, Shelf>,
                          now: Time) {
    && b.openWorkItems == OpenCount(workItems)
    && b.active == Across(workItems, assignments, Graded(SeverityActive, now))
    && b.blocked == Across(workItems, assignments, Graded(SeverityBlocked, now))
    && b.gaps == GapsAcross(workItems, assignments, shelves)
    && b.closeoutReady == ReadyCount(workItems, assignments, shelves)
    && |b.items| == b.pendingCandidates + b.active + b.blocked + b.gaps.Total() + b.closeoutReady
                    + UnassignedCount(workItems, assignments)
  }

  /** `b` with the findings of one more work item. */
  function Briefed(b: Brief, w: WorkItem, f: Findings): Brief {
    b.(openWorkItems := b.openWorkItems + if Closed(w.status) then 0 else 1,
       active := b.active + f.active, blocked := b.blocked + f.blocked, gaps := b.gaps.Plus(f.gaps),
       closeoutReady := b.closeoutReady + if f.ready then 1 else 0,
       items := b.items + f.items)
  }

  lemma BriefedCounts(b: Brief, workItems: seq<WorkItem>, i: nat, assignments: seq<Assignment>,
                      shelves: map<Id, Shelf>, now: Time, f: Findings)
    requires i < |workItems| && Counted(b, workItems[..i], assignments, shelves, now)
    requires var id := workItems[i].id; Found(f, workItems[i], Under(assignments, id), ShelfOf(shelves, id), now)
    ensures Counted(Briefed(b, workItems[i], f), workItems[..i + 1], assignments, shelves, now)
  {
    hide Closeout.MayClose, Closeout.Closed, Unassigned, GapsOf, Tally, Under, ShelfOf, ItemsUnder;
    assert workItems[..i + 1][..i] == workItems[..i];
  }

  /** The items of the brief before they are sorted. */
  ghost predicate Itemized(b: Brief, pending: seq<OperationItem>, workItems: seq<WorkItem>,
                           assignments: seq<Assignment>,
                           shelves: map<Id, Shelf>, now: Time) {
    b.items == pending + ItemsAcross(workItems, assignments, shelves, now)
  }

  lemma BriefedItems(b: Brief, pending: seq<OperationItem>, workItems: seq<WorkItem>, i: nat,
                     assignments: seq<Assignment>, shelves: map<Id, Shelf>, now: Time, f: Findings)
    requires i < |workItems| && Itemized(b, pending, workItems[..i], assignments, shelves, now)
    requires var id := workItems[i].id; Found(f, workItems[i], Under(assignments, id), ShelfOf(shelves, id), now)
    ensures Itemized(Briefed(b, workItems[i], f), pending, workItems[..i + 1], assignments, shelves, now)
  {
    hide Closeout.MayClose, Closeout.Closed, Unassigned, GapsOf, Tally, Under, ShelfOf, ItemsUnder;
    assert workItems[..i + 1][..i] == workItems[..i];
  }

  lemma NothingBriefed(workItems: nat, assignments: nat, pending: seq<OperationItem>, listed: seq<Assignment>,
                       shelves: map<Id, Shelf>, now: Time)
    ensures var b := Brief(workItems, assignments, 0, |pending|, 0, 0, NO_GAPS, 0, pending, None);
      Counted(b, [], listed, shelves, now) && Itemized(b, pending, [], listed, shelves, now)
  {
  }

  /** The final sort and the item that comes first. */
  function Arranged(b: Brief, title: TitleOrder): Brief {
    var sorted := Sort(b.items, title);
    b.(items := sorted, next := if sorted == [] then None else Some(sorted[0]))
  }

  /** The brief lists these items in their order, and the first of them as the next one. */
  ghost predicate WellArranged(b: Brief, items: seq<OperationItem>, title: TitleOrder) {
    && Arranges(b.items, items, title)
    && (b.next.None? <==> b.items == [])
    && (b.next.Some? ==> b.next.value in b.items && forall x :: x in b.items ==> !Before(x, b.next.value, title))
  }

  lemma ArrangedMeans(b: Brief, title: TitleOrder)
    ensures WellArranged(Arranged(b, title), b.items, title)
  {
    SortArranges(b.items, title);
    NextComesFirst(b.items, title);
    hide Arranges, Before, Sort;
  }

  lemma ArrangedItems(b: Brief, title: TitleOrder, pending: seq<OperationItem>, workItems: seq<WorkItem>,
                      assignments: seq<Assignment>, shelves: map<Id, Shelf>, now: Time)
    requires Itemized(b, pending, workItems, assignments, shelves, now)
    ensures WellArranged(Arranged(b, title), pending + ItemsAcross(workItems, assignments, shelves, now), title)
  {
    ArrangedMeans(b, title);
  }

  lemma ArrangedCounts(b: Brief, title: TitleOrder, workItems: seq<WorkItem>, assignments: seq<Assignment>,
                       shelves: map<Id, Shelf>, now: Time)
    requires Counted(b, workItems, assignments, shelves, now)
    ensures Counted(Arranged(b, title), workItems, assignments, shelves, now)
    ensures |Arranged(b, title).items| == |b.items|
  {
    NextComesFirst(b.items, title);
    hide Before, Sort, OpenCount, ReadyCount, Across, GapsAcross, UnassignedCount;
  }

  /** Every count is right, every item is counted once, and exactly the items of all work
      items and candidates are listed, by rank and then the latest first. With known statuses a brief without items
      means there is no open
      work and no pending candidate. */
  method ProjectOperationsBrief(workItems: seq<WorkItem>, assignments: seq<Assignment>, candidates: seq<Candidate>,
                                shelves: map<Id, Shelf>, title: TitleOrder, now: Time)
    returns (b: Brief)
    ensures b.workItems == |workItems| && b.assignments == |assignments|
    ensures b.pendingCandidates == |PendingItems(candidates)|
    ensures Counted(b, workItems, assignments, shelves, now)
    ensures WellArranged(b, PendingItems(candidates) + ItemsAcross(workItems, assignments, shelves, now), title)
    ensures AllListed(assignments) && b.items == [] ==> AllClosed(workItems) && b.pendingCandidates == 0
  {
    hide Closeout.MayClose, Closeout.Closed, AllListed, AllClosed, Counted, Found, Itemized, WellArranged;
    NoneIsAllClosed(workItems);
    var groups := GroupByWorkItem(assignments);
    var pending := BriefCandidates(candidates);
    b := Brief(|workItems|, |assignments|, 0, |pending|, 0, 0, NO_GAPS, 0, pending, None);
    NothingBriefed(|workItems|, |assignments|, pending, assignments, shelves, now);
    assert workItems[..0] == [];
    for i := 0 to |workItems|
      invariant b == b.(workItems := |workItems|, assignments := |assignments|, pendingCandidates := |pending|)
      invariant Counted(b, workItems[..i], assignments, shelves, now)
      invariant Itemized(b, pending, workItems[..i], assignments, shelves, now)
      invariant AllListed(assignments) && b.items == [] ==> AllClosed(workItems[..i]) && pending == []
    {
      var w := workItems[i];
      AllClosedPush(workItems, i);
      ListedUnder(assignments, w.id);
      var f := BriefWorkItem(w, Group(groups, w.id), ShelfOf(shelves, w.id), now);
      BriefedCounts(b, workItems, i, assignments, shelves, now, f);
      BriefedItems(b, pending, workItems, i, assignments, shelves, now, f);
      b := Briefed(b, w, f);
    }
    assert workItems[..|workItems|] == workItems;
    ArrangedItems(b, title, pending, workItems, assignments, shelves, now);
    ArrangedCounts(b, title, workItems, assignments, shelves, now);
    b := Arranged(b, title);
  }

  // ---------------------------------------------------------------- agreement

  /** Listings of one project of a store, in any order: every work item once, and its
      assignments. */
  predicate Listings(s: State, projectId: Id, workItems: seq<WorkItem>, assignments: seq<Assignment>) {
    && DistinctIds(workItems)
    && (forall k :: k in s.workItems.rows && k.project == projectId ==> s.workItems.rows[k] in workItems)
    && (forall a :: a in assignments ==> exists k :: k in s.assignments.rows && k.project == projectId
                                           && s.assignments.rows[k] == a)
  }

  /** The counts agree on any listings where every assignment has its work item and the two
      views classify it alike. */
  lemma CountsAgree(workItems: seq<WorkItem>, assignments: seq<Assignment>, now: Time)
    requires DistinctIds(workItems)
    requires forall a :: a in assignments ==> ListsId(workItems, a.workItemId) && SameVerdict(a, now)
    ensures Tally(assignments, Bucketed(InActive, now)) == Across(workItems, assignments, Graded(SeverityActive, now))
    ensures Tally(assignments, Bucketed(InBlocked, now)) == Across(workItems, assignments, Graded(SeverityBlocked, now))
  {
    CountAgrees(workItems, assignments, Bucketed(InActive, now), Graded(SeverityActive, now));
    CountAgrees(workItems, assignments, Bucketed(InBlocked, now), Graded(SeverityBlocked, now));
  }

  lemma CountAgrees(workItems: seq<WorkItem>, assignments: seq<Assignment>, p: Assignment -> bool,
                    q: Assignment -> bool)
    requires DistinctIds(workItems)
    requires forall a :: a in assignments ==> ListsId(workItems, a.workItemId) && p(a) == q(a)
    ensures Tally(assignments, p) == Across(workItems, assignments, q)
  {
    Regrouped(workItems, assignments, q);
    TallySame(assignments, p, a => q(a) && ListsId(workItems, a.workItemId));
  }

  /** A listed assignment of a reachable state has its work item listed, and no padding. */
  lemma ListedIsSound(run: seq<Event>, i: nat, projectId: Id, workItems: seq<WorkItem>, assignments: seq<Assignment>,
                      a: Assignment)
    requires i <= |run| && Listings(At(run, i), projectId, workItems, assignments) && a in assignments
    ensures ListsId(workItems, a.workItemId) && !a.status.Padded? && StatusBucket(a.status) != InOther
  {
    hide StoreModel.At, DistinctIds, Integrity.RefsOk, Filing.Filed;
    var s := At(run, i);
    Integrity.RefsInEveryRun(run, i);
    Filing.FiledInEveryRun(run, i);
    var k :| k in s.assignments.rows && k.project == projectId && s.assignments.rows[k] == a;
    Runs.PlainStatusInEveryRun(run, i, k);
    WorkItemIsThere(s, k);
    assert s.workItems.rows[Key(projectId, a.workItemId)] in workItems;
  }

  lemma WorkItemIsThere(s: State, k: Key)
    requires Integrity.RefsOk(s) && Filing.Filed(s) && k in s.assignments.rows
    ensures var w := Key(k.project, s.assignments.rows[k].workItemId);
      w in s.workItems.rows && s.workItems.rows[w].id == w.id
  {
  }

  /** In every reachable state, for any clock reading and any order of the listings, the
      active and blocked counts of the two views are equal. */
  lemma ProjectionsAgreeInEveryRun(run: seq<Event>, i: nat, projectId: Id, workItems: seq<WorkItem>,
                                   assignments: seq<Assignment>, now: Time)
    requires i <= |run| && Listings(At(run, i), projectId, workItems, assignments)
    ensures Tally(assignments, Bucketed(InActive, now)) == Across(workItems, assignments, Graded(SeverityActive, now))
    ensures Tally(assignments, Bucketed(InBlocked, now)) == Across(workItems, assignments, Graded(SeverityBlocked, now))
  {
    forall a | a in assignments
      ensures ListsId(workItems, a.workItemId) && SameVerdict(a, now)
    {
      ListedIsSound(run, i, projectId, workItems, assignments, a);
      SameVerdictExactlyWhen(a, now);
    }
    hide StoreModel.At, Tally, Across;
    CountsAgree(workItems, assignments, now);
  }

  /** So the brief of a reachable state lists something whenever open work remains. */
  lemma StatusesListedInEveryRun(run: seq<Event>, i: nat, projectId: Id, workItems: seq<WorkItem>,
                                 assignments: seq<Assignment>)
    requires i <= |run| && Listings(At(run, i), projectId, workItems, assignments)
    ensures AllListed(assignments)
  {
    forall a | a in assignments
      ensures StatusBucket(a.status) != InOther
    {
      ListedIsSound(run, i, projectId, workItems, assignments, a);
    }
  }
}
