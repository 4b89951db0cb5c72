/** Assistant proposals: their records, what any caller may do to them, and applying one as
    a prefix of its actions. */
module Assistant {
  import opened Domain
  import opened StoreModel

  /** An assignment payload without a status. */
  const NO_STATUS := Unlisted(0)

  datatype Proposal = Proposal(id: Id, projectId: Id, title: Text, actions: seq<Op>)

  datatype ApplyStatus = Unset | Proposed | NeedsConfirmation | Applied | Partial | Rejected | OtherStatus(text: nat)

  datatype ActionResult = ActionResult(applied: bool, error: Option<Error>)

  datatype ApplyResult = ApplyResult(
    proposalId: Id, status: ApplyStatus, applied: bool, confirmed: bool,
    totalActionCount: nat, appliedActionCount: nat, failedActionIndex: Option<nat>,
    actions: seq<ActionResult>)

  const NO_RESULT := ApplyResult(Blank, Unset, false, false, 0, 0, None, [])

  datatype Attempt = Attempt(
    proposalId: Id, status: ApplyStatus, confirmed: bool, result: ApplyResult,
    error: Option<Error>, createdAt: Time)

  datatype ProposalRecord = ProposalRecord(
    id: Id, projectId: Id, proposal: Proposal, status: ApplyStatus, latestResult: Option<ApplyResult>,
    attempts: seq<Attempt>, updatedAt: Time, appliedAt: Option<Time>)

  type Records = map<Id, ProposalRecord>

  /** The store and the proposal ledger. */
  datatype World = World(state: State, records: Records)

  /** What a caller may do besides applying a record. */
  datatype Act =
    | OnStore(event: Event)
    | Propose(proposal: Proposal, newId: FreshId, now: Time)
    | Import(record: ProposalRecord, newId: FreshId)

  /** What the other callers do before each action and before the result is written back,
      and the clock readings. */
  datatype Schedule = Schedule(others: nat -> seq<Act>, clock: nat -> Time)

  /** One call of `ApplyAssistantProposalRecord`. */
  datatype Call = Call(id: Id, confirmed: bool, schedule: Schedule, attemptedAt: Time, recordedAt: Time)

  // ---------------------------------------------------------------- validation

  /** `validateAssistantAction` on the modelled kinds, and the token `AssistantPropose`
      insists on. */
  predicate ActionOk(a: Op) {
    match a
    case OpCreateProject(_) | OpCreateRole(_) | OpCreateWorkItem(_) | OpCreateEvidence(_)
       | OpCreateReview(_) | OpCreateHandoff(_) => true
    case OpPlain(op) => op.OpCreateCandidate?
    case OpUpdateProject(p) => Trim(p.id) != Blank
    case OpUpdateRole(r) => Trim(r.id) != Blank
    case OpUpdateWorkItem(w) => Trim(w.id) != Blank
    case OpCreateAssignment(x) =>
      && (x.status == NO_STATUS || TrimStatus(x.status) == Queued)
      && Trim(x.claimedBy) == Blank && x.executionRef == EMPTY_REF && Trim(x.contextSnapshotId) == Blank
    case OpPatchHandoff(_, _, id, u) => Trim(id) != Blank && u.expectedUpdatedAt != ZERO_TIME
    case _ => false
  }

  /** An action as `validateAssistantAction` alone sees it: the token is not required. */
  predicate ActionShapeOk(a: Op) {
    ActionOk(if a.OpPatchHandoff? then a.(update := a.update.(expectedUpdatedAt := 1)) else a)
  }

  /** `validateAssistantProposal` without and with the token. */
  predicate ShapeOk(p: Proposal) {
    Trim(p.title) != Blank && p.actions != [] && forall i :: 0 <= i < |p.actions| ==> ActionShapeOk(p.actions[i])
  }

  predicate ProposalOk(p: Proposal) {
    Trim(p.title) != Blank && p.actions != [] && forall i :: 0 <= i < |p.actions| ==> ActionOk(p.actions[i])
  }

  /** The only thing that validation before applying adds to validation before storing is
      that every handoff update presents a token. */
  lemma OnlyTokensCanBeMissing(p: Proposal)
    ensures ProposalOk(p) <==>
      ShapeOk(p) && forall i :: 0 <= i < |p.actions| && p.actions[i].OpPatchHandoff?
                      ==> p.actions[i].update.expectedUpdatedAt != ZERO_TIME
  {
    forall i | 0 <= i < |p.actions|
      ensures ActionOk(p.actions[i]) <==>
        ActionShapeOk(p.actions[i])
          && (p.actions[i].OpPatchHandoff? ==> p.actions[i].update.expectedUpdatedAt != ZERO_TIME)
    {
    }
  }

  // ---------------------------------------------------------------- records

  /** `assistantProposalStatusForResult`. */
  function StatusFor(r: ApplyResult): ApplyStatus {
    match r.status
    case NeedsConfirmation | Applied | Partial | Rejected => r.status
    case _ =>
      if r.applied then Applied
      else if r.status != Unset then r.status
      else Proposed
  }

  /** The project an action names in its payload. */
  function ActionProject(a: Op): Id {
    match a
    case OpCreateProject(p) => Trim(p.id)
    case OpUpdateProject(p) => Trim(p.id)
    case OpCreateRole(r) => Trim(r.projectId)
    case OpUpdateRole(r) => Trim(r.projectId)
    case OpCreateWorkItem(w) => Trim(w.projectId)
    case OpUpdateWorkItem(w) => Trim(w.projectId)
    case OpCreateAssignment(x) => Trim(x.projectId)
    case OpCreateEvidence(x) => Trim(x.projectId)
    case OpCreateReview(x) => Trim(x.projectId)
    case OpCreateHandoff(h) => Trim(h.projectId)
    case OpPatchHandoff(p, _, _, _) => Trim(p)
    case OpPlain(op) => if op.OpCreateCandidate? then Trim(op.candidate.projectId) else Blank
    case _ => Blank
  }

  function FirstProject(actions: seq<Op>): Id {
    if actions == [] then Blank
    else if ActionProject(actions[0]) != Blank then ActionProject(actions[0])
    else FirstProject(actions[1..])
  }

  /** `assistantProposalProjectID`: the project of the proposal, or else of its first action
      that names one. */
  method ProposalProject(p: Proposal) returns (id: Id)
    ensures id == ProjectOf(p)
  {
    if Trim(p.projectId) != Blank {
      return Trim(p.projectId);
    }
    for i := 0 to |p.actions|
      invariant FirstProject(p.actions) == FirstProject(p.actions[i..])
    {
      if ActionProject(p.actions[i]) != Blank {
        return ActionProject(p.actions[i]);
      }
    }
    return Blank;
  }

  function ProjectOf(p: Proposal): Id {
    if Trim(p.projectId) != Blank then Trim(p.projectId) else FirstProject(p.actions)
  }

  /** `normalizeAssistantProposalRecord`; `newId` is the generated id. */
  function Normalized(rec: ProposalRecord, newId: FreshId): ProposalRecord {
    var id :=
      if Trim(rec.id) != Blank then Trim(rec.id) else if rec.proposal.id != Blank then rec.proposal.id else newId;
    var projectId :=
      if Trim(rec.projectId) != Blank then Trim(rec.projectId)
      else if rec.proposal.projectId != Blank then rec.proposal.projectId
      else FirstProject(rec.proposal.actions);
    var plain := rec.(id := id, projectId := projectId, proposal := rec.proposal.(id := id, projectId := projectId),
                      status := if rec.status == Unset then Proposed else rec.status);
    if rec.latestResult.None? then plain else WithResult(plain, rec.latestResult.value, rec.updatedAt)
  }

  /** `applyAssistantResultToProposalRecord`. */
  function WithResult(rec: ProposalRecord, r: ApplyResult, now: Time): ProposalRecord {
    rec.(latestResult := Some(if r.proposalId == Blank then r.(proposalId := rec.id) else r),
         status := StatusFor(r), updatedAt := now,
         appliedAt := if r.applied then Some(now) else rec.appliedAt)
  }

  /** `validateAssistantApplyAttempt`. */
  predicate AttemptOk(a: Attempt) {
    Trim(a.proposalId) != Blank && a.status != Unset
  }

  /** `validateAssistantProposalRecord`. */
  predicate RecordOk(rec: ProposalRecord) {
    && Trim(rec.id) != Blank
    && Trim(rec.proposal.id) == rec.id
    && ShapeOk(rec.proposal)
    && forall i :: 0 <= i < |rec.attempts| ==> AttemptOk(rec.attempts[i])
  }

  /** The record was applied already. */
  predicate Spent(rec: ProposalRecord) {
    (rec.latestResult.Some? && rec.latestResult.value.applied) || rec.status == Applied
  }

  /** A stored record: it passed validation and normalizing it again changes nothing. */
  predicate RecordStored(k: Id, rec: ProposalRecord) {
    RecordOk(rec) && rec.id == k && rec.proposal.id == k && Normalized(rec, Word(0)) == rec
  }

  ghost predicate LedgerOk(records: Records) {
    forall k :: k in records ==> RecordStored(k, records[k])
  }

  // ---------------------------------------------------------------- what any caller may do

  /** `MemoryStore.CreateAssistantProposal`. */
  function CreateRecord(records: Records, rec: ProposalRecord, newId: FreshId): Result<Records> {
    var r := Normalized(rec, newId);
    if !RecordOk(r) then Err(Invalid)
    else if r.id in records then Err(Duplicate)
    else Ok(records[r.id := r])
  }

  /** `MemoryStore.UpdateAssistantProposal`. */
  function UpdateRecord(records: Records, rec: ProposalRecord, newId: FreshId): Result<Records> {
    var r := Normalized(rec, newId);
    if rec.id !in records then Err(NotFound)
    else if !RecordOk(r) then Err(Invalid)
    else Ok(records[r.id := r])
  }

  /** `normalizeAssistantProposal`. */
  function Tidied(p: Proposal, newId: FreshId): Proposal {
    Proposal(if Trim(p.id) != Blank then Trim(p.id) else newId, Trim(p.projectId), Trim(p.title), p.actions)
  }

  function FreshRecord(p: Proposal, now: Time): ProposalRecord {
    ProposalRecord(p.id, p.projectId, p, Proposed, None, [], now, None)
  }

  /** `Service.CreateAssistantProposal`. */
  function ProposeOn(records: Records, input: Proposal, newId: FreshId, now: Time): Result<Records> {
    var p := Tidied(input, newId);
    if !ProposalOk(p) then Err(Invalid) else CreateRecord(records, Normalized(FreshRecord(p, now), newId), newId)
  }

  /** `Service.ImportAssistantProposalRecord`. */
  function ImportOn(records: Records, input: ProposalRecord, newId: FreshId): Result<Records> {
    var r := Normalized(input, newId);
    if !RecordOk(r) then Err(Invalid)
    else if r.id in records then UpdateRecord(records, r, newId)
    else CreateRecord(records, r, newId)
  }

  function After(records: Records, r: Result<Records>): Records {
    if r.Ok? then r.value else records
  }

  /** The records of other projects. */
  function Spared(records: Records, projectId: Id): Records {
    map k | k in records && records[k].projectId != projectId :: records[k]
  }

  /** One act; deleting a project takes its proposal records along. */
  function Perform(w: World, a: Act): World {
    match a
    case OnStore(e) =>
      World(Apply(w.state, e).state,
            if e.op.OpDeleteProject? && e.op.projectId in w.state.projects.rows then Spared(w.records, e.op.projectId)
            else w.records)
    case Propose(p, newId, now) => w.(records := After(w.records, ProposeOn(w.records, p, newId, now)))
    case Import(rec, newId) => w.(records := After(w.records, ImportOn(w.records, rec, newId)))
  }

  function Performed(w: World, acts: seq<Act>): World {
    if acts == [] then w else Perform(Performed(w, acts[..|acts| - 1]), acts[|acts| - 1])
  }

  lemma {:induction false} PerformedConcat(w: World, acts: seq<Act>, more: seq<Act>)
    ensures Performed(w, acts + more) == Performed(Performed(w, acts), more)
  {
    hide Perform;
    if more == [] {
      assert acts + more == acts;
    } else {
      var n := |more| - 1;
      assert (acts + more)[..|acts| + n] == acts + more[..n];
      PerformedConcat(w, acts, more[..n]);
    }
  }

  // ---------------------------------------------------------------- what an act does to a record

  /** The act deletes the project of the record under `key`. */
  predicate Deletes(w: World, a: Act, key: Id) {
    && a.OnStore? && a.event.op.OpDeleteProject? && a.event.op.projectId in w.state.projects.rows
    && key in w.records && w.records[key].projectId == a.event.op.projectId
  }

  /** The act imports a record under `key`. */
  predicate Imports(a: Act, key: Id) {
    a.Import? && RecordOk(Normalized(a.record, a.newId)) && Normalized(a.record, a.newId).id == key
  }

  /** What such an import stores. */
  function Imported(a: Act): ProposalRecord
    requires a.Import?
  {
    Normalized(Normalized(a.record, a.newId), a.newId)
  }

  /** The act proposes a valid proposal under `key`. */
  predicate Proposes(a: Act, key: Id) {
    a.Propose? && ProposalOk(Tidied(a.proposal, a.newId)) && Tidied(a.proposal, a.newId).id == key
  }

  lemma {:induction false} FirstProjectIsPlain(actions: seq<Op>)
    ensures !FirstProject(actions).Spaced?
  {
    if actions != [] {
      FirstProjectIsPlain(actions[1..]);
      ActionProjectIsPlain(actions[0]);
    }
  }

  lemma ActionProjectIsPlain(a: Op)
    ensures !ActionProject(a).Spaced?
  {
    forall t: Text
      ensures !Trim(t).Spaced?
    {
      TrimIsPlain(t);
    }
  }

  /** A record that passes validation once normalized keeps passing, and normalizing it
      twice is enough. */
  lemma NormalizedIsStored(rec: ProposalRecord, newId: FreshId)
    requires RecordOk(Normalized(rec, newId))
    ensures var r := Normalized(Normalized(rec, newId), newId);
      r.id == Normalized(rec, newId).id && RecordStored(r.id, r)
  {
    FirstProjectIsPlain(rec.proposal.actions);
    TrimIsPlain(rec.id);
    TrimIsPlain(rec.projectId);
    TrimIsPlain(rec.proposal.id);
    TrimIsPlain(rec.proposal.projectId);
    SameActions(rec.proposal, Normalized(rec, newId).proposal);
  }

  /** The first of three texts that is not blank, trimmed. */
  function FirstNamed(t1: Text, t2: Text, t3: Text): Text {
    if Trim(t1) != Blank then Trim(t1) else if t2 != Blank then t2 else t3
  }

  /** Normalizing gives a record and its proposal one id and one project, and files it under
      what its latest result says: an outcome it names, or else applied if it was. */
  lemma NormalizedMeans(rec: ProposalRecord, newId: FreshId)
    ensures var r := Normalized(rec, newId);
      && r.id == r.proposal.id == FirstNamed(rec.id, rec.proposal.id, newId)
      && r.projectId == r.proposal.projectId
      && r.projectId == FirstNamed(rec.projectId, rec.proposal.projectId, FirstProject(rec.proposal.actions))
      && r.proposal.title == rec.proposal.title && r.proposal.actions == rec.proposal.actions
      && r.attempts == rec.attempts && r.updatedAt == rec.updatedAt
      && (rec.latestResult.None? ==>
            && r.latestResult == None && r.appliedAt == rec.appliedAt
            && (rec.status == Unset ==> r.status == Proposed) && (rec.status != Unset ==> r.status == rec.status))
      && (rec.latestResult.Some? ==>
            var x := rec.latestResult.value;
            && (x.status in {NeedsConfirmation, Applied, Partial, Rejected} ==> r.status == x.status)
            && (x.status !in {NeedsConfirmation, Applied, Partial, Rejected} && x.applied ==> r.status == Applied)
            && (x.status in {Unset, Proposed} && !x.applied ==> r.status == Proposed)
            && (x.status.OtherStatus? && !x.applied ==> r.status == x.status)
            && r.appliedAt == (if x.applied then Some(rec.updatedAt) else rec.appliedAt)
            && r.latestResult == Some(x.(proposalId := if x.proposalId == Blank then r.id else x.proposalId)))
  {
  }

  /** A proposal is filed as proposed, never tried, under its own id or the new one. */
  lemma ProposedMeans(records: Records, p: Proposal, newId: FreshId, now: Time)
    requires ProposeOn(records, p, newId, now).Ok?
    ensures var id := if Trim(p.id) != Blank then Trim(p.id) else newId;
      var records' := ProposeOn(records, p, newId, now).value;
      && id !in records && id in records' && records' == records[id := records'[id]]
      && var r := records'[id];
         && r.id == id && r.status == Proposed && r.latestResult == None && r.attempts == [] && r.appliedAt == None
         && r.updatedAt == now && r.projectId == ProjectOf(p)
         && r.proposal == Proposal(id, r.projectId, Trim(p.title), p.actions)
  {
    TrimIsPlain(p.id);
    TrimIsPlain(p.projectId);
    FirstProjectIsPlain(p.actions);
    TidiedIsStored(Tidied(p, newId), newId, now);
    hide ProposalOk, ShapeOk;
  }

  lemma TidiedIsStored(p: Proposal, newId: FreshId, now: Time)
    requires p.id.Word? && !p.projectId.Spaced?
    ensures var r := Normalized(FreshRecord(p, now), newId);
      && Normalized(r, newId) == r && r.id == p.id && r.projectId == ProjectOf(p)
      && r == FreshRecord(p.(projectId := ProjectOf(p)), now)
  {
    FirstProjectIsPlain(p.actions);
    hide FirstProject;
  }

  lemma SameActions(p: Proposal, q: Proposal)
    requires p.actions == q.actions && p.title == q.title
    ensures ShapeOk(p) == ShapeOk(q)
  {
  }

  /** What the act does to the record under the key. */
  predicate ActedOn(w: World, a: Act, key: Id) {
    var w' := Perform(w, a);
    && (key in w'.records <==> (key in w.records && !Deletes(w, a, key)) || Imports(a, key) || Proposes(a, key))
    && (key in w'.records && Imports(a, key) ==> w'.records[key] == Imported(a))
    && (key in w'.records && key in w.records && !Imports(a, key) ==> w'.records[key] == w.records[key])
    && (key in w'.records && key !in w.records && !Imports(a, key) ==> !Spent(w'.records[key]))
    && (key in w'.records ==> RecordStored(key, w'.records[key]))
  }

  lemma EventOnRecord(w: World, a: Act, key: Id)
    requires LedgerOk(w.records) && a.OnStore?
    ensures ActedOn(w, a, key)
  {
    hide StoreModel.Apply;
  }

  lemma ImportOnRecord(w: World, a: Act, key: Id)
    requires LedgerOk(w.records) && a.Import?
    ensures ActedOn(w, a, key)
  {
    if RecordOk(Normalized(a.record, a.newId)) { NormalizedIsStored(a.record, a.newId); }
    hide Normalized, RecordOk, RecordStored, Spent, StoreModel.Apply;
  }

  lemma ProposalOnRecord(w: World, a: Act, key: Id)
    requires LedgerOk(w.records) && a.Propose?
    ensures ActedOn(w, a, key)
  {
    WordMeaning(Trim(a.proposal.id));
    TrimIsPlain(a.proposal.id);
    if ProposalOk(Tidied(a.proposal, a.newId)) { ProposedIsStored(Tidied(a.proposal, a.newId), a.newId, a.now); }
  }

  /** Exactly what an act does to the record under a key: a deletion of its project removes
      it, an import replaces it, a proposal only fills an empty place. */
  lemma ActOnRecord(w: World, a: Act, key: Id)
    requires LedgerOk(w.records)
    ensures var w' := Perform(w, a);
      && (key in w'.records <==> (key in w.records && !Deletes(w, a, key)) || Imports(a, key) || Proposes(a, key))
      && (key in w'.records && Imports(a, key) ==> w'.records[key] == Imported(a))
      && (key in w'.records && key in w.records && !Imports(a, key) ==> w'.records[key] == w.records[key])
      && (key in w'.records && key !in w.records && !Imports(a, key) ==> !Spent(w'.records[key]))
      && (key in w'.records ==> RecordStored(key, w'.records[key]))
  {
    match a
    case OnStore(_) => EventOnRecord(w, a, key);
    case Import(_, _) => ImportOnRecord(w, a, key);
    case Propose(_, _, _) => ProposalOnRecord(w, a, key);
  }

  lemma ProposedIsStored(p: Proposal, newId: FreshId, now: Time)
    requires ProposalOk(p) && p.id.Word?
    ensures var r := Normalized(FreshRecord(p, now), newId);
      RecordOk(r) && r.id == p.id && !Spent(Normalized(r, newId)) && RecordStored(p.id, Normalized(r, newId))
  {
    OnlyTokensCanBeMissing(p);
    SameActions(p, Normalized(FreshRecord(p, now), newId).proposal);
    NormalizedIsStored(FreshRecord(p, now), newId);
  }
}
