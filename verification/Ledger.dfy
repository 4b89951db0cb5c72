/** Applying a recorded proposal: exactly a prefix of its actions runs, amid whatever other
    callers do, and the outcome is written back if the record is still there. */
module AssistantLedger {
  import opened Domain
  import opened StoreModel
  import opened Assistant
  import FollowUps

  // ---------------------------------------------------------------- prefix execution

  /** Everything that happens while `n` actions are tried, up to the next action or the
      write-back: the other callers' acts with the actions in between. */
  function Trace(actions: seq<Op>, w: Schedule, n: nat): seq<Act>
    requires n <= |actions|
  {
    if n == 0 then w.others(0)
    else Trace(actions, w, n - 1) + [OnStore(Event(actions[n - 1], w.clock(n - 1)))] + w.others(n)
  }

  function Upto(w: World, actions: seq<Op>, s: Schedule, n: nat): World
    requires n <= |actions|
  {
    Performed(w, Trace(actions, s, n))
  }

  /** The store's reply to action `i`. */
  function ReplyTo(w: World, actions: seq<Op>, s: Schedule, i: nat): Reply
    requires i < |actions|
  {
    Apply(Upto(w, actions, s, i).state, Event(actions[i], s.clock(i))).reply
  }

  /** Whatever the operation, a refused call leaves the store as it was. */
  lemma RefusalChangesNothing(s: State, e: Event)
    requires Apply(s, e).reply.Refused?
    ensures Apply(s, e).state == s
  {
    if e.op.OpAcceptHandoff? {
      FollowUps.FailureChangesNothing(s, e.op.command, e.op.newAssignmentId, e.op.created, e.now);
    }
  }

  /** So the action that fails takes no effect: what follows is as if only the other callers
      had acted. */
  lemma FailedActionIsSkipped(w: World, actions: seq<Op>, s: Schedule, i: nat)
    requires i < |actions| && ReplyTo(w, actions, s, i).Refused?
    ensures Upto(w, actions, s, i + 1) == Performed(Upto(w, actions, s, i), s.others(i + 1))
  {
    hide StoreModel.Apply;
    UptoNext(w, actions, s, i);
    RefusalChangesNothing(Upto(w, actions, s, i).state, Event(actions[i], s.clock(i)));
    if actions[i].OpDeleteProject? {
      RefusedDeletion(Upto(w, actions, s, i).state, Event(actions[i], s.clock(i)));
    }
  }

  lemma RefusedDeletion(s: State, e: Event)
    requires Apply(s, e).reply.Refused? && e.op.OpDeleteProject?
    ensures e.op.projectId !in s.projects.rows
  {
  }

  lemma UptoNext(w: World, actions: seq<Op>, s: Schedule, i: nat)
    requires i < |actions|
    ensures Upto(w, actions, s, i + 1) ==
      Performed(Perform(Upto(w, actions, s, i), OnStore(Event(actions[i], s.clock(i)))), s.others(i + 1))
  {
    hide Perform;
    var own := [OnStore(Event(actions[i], s.clock(i)))];
    var before := Trace(actions, s, i);
    PerformedConcat(w, before + own, s.others(i + 1));
    assert (before + own)[..|before|] == before;
  }

  /** What applying a proposal means: exactly the first `appliedActionCount` actions were
      accepted, each once and in order, at most one more was tried, and the result says
      so. */
  predicate PrefixRan(w: World, p: Proposal, s: Schedule, r: ApplyResult, e: Option<Error>, w': World) {
    var n, c := |p.actions|, r.appliedActionCount;
    && r.proposalId == p.id && r.confirmed && r.totalActionCount == n
    && c <= n
    && (forall i: nat :: i < c ==> !ReplyTo(w, p.actions, s, i).Refused?)
    && r.applied == (c == n)
    && |r.actions| == (if c == n then n else c + 1)
    && (forall i :: 0 <= i < c ==> r.actions[i] == ActionResult(true, None))
    && w' == Upto(w, p.actions, s, |r.actions|)
    && if c == n then
         e == None && r.status == Applied && r.failedActionIndex == None
       else
         && e.Some? && ReplyTo(w, p.actions, s, c) == Refused(e.value)
         && r.actions[c] == ActionResult(false, e)
         && r.failedActionIndex == Some(c)
         && r.status == (if c == 0 then Rejected else Partial)
  }

  /** The outcome is determined: there is one prefix, one result and one final world. */
  lemma PrefixIsUnique(w: World, p: Proposal, s: Schedule, r1: ApplyResult, e1: Option<Error>, w1: World,
                       r2: ApplyResult, e2: Option<Error>, w2: World)
    requires PrefixRan(w, p, s, r1, e1, w1) && PrefixRan(w, p, s, r2, e2, w2)
    ensures r1 == r2 && e1 == e2 && w1 == w2
  {
    hide Upto, ReplyTo;
    assert r1.appliedActionCount == r2.appliedActionCount;
    assert r1.actions == r2.actions;
  }

  // ---------------------------------------------------------------- one call

  /** `applyAssistantResultToProposalRecord` and the appended attempt. */
  function Noted(rec: ProposalRecord, r: ApplyResult, e: Option<Error>, c: Call): ProposalRecord {
    var attempt := Attempt(Trim(r.proposalId), if r.status == Unset then Rejected else r.status, c.confirmed, r, e,
                           c.attemptedAt);
    WithResult(rec, r, c.recordedAt).(attempts := rec.attempts + [attempt])
  }

  function SpentResult(rec: ProposalRecord): ApplyResult {
    if rec.latestResult.Some? then rec.latestResult.value
    else NO_RESULT.(proposalId := rec.id, status := Applied, applied := true)
  }

  function AskedToConfirm(p: Proposal): ApplyResult {
    NO_RESULT.(proposalId := p.id, status := NeedsConfirmation, totalActionCount := |p.actions|)
  }

  /** The call finds an unspent record and tries to apply it. */
  predicate Tries(w: World, c: Call) {
    Trim(c.id) != Blank && Trim(c.id) in w.records && !Spent(w.records[Trim(c.id)])
  }

  /** What applying the record yields, before anything is written back. */
  predicate Ran(w: World, c: Call, r: ApplyResult, e: Option<Error>, w': World)
    requires Tries(w, c)
  {
    var p := w.records[Trim(c.id)].proposal;
    if !ProposalOk(p) then
      r == NO_RESULT && e == Some(Invalid) && w' == Upto(w, p.actions, c.schedule, 0)
    else if !c.confirmed then
      r == AskedToConfirm(p) && e == Some(Conflict) && w' == Upto(w, p.actions, c.schedule, 0)
    else PrefixRan(w, p, c.schedule, r, e, w')
  }

  /** The write-back: it needs the record to be there and the result to name the proposal,
      and overwrites whatever the record has become. */
  function WrittenBack(rec: ProposalRecord, c: Call, r: ApplyResult, e: Option<Error>,
                       w: World): (World, Option<Error>) {
    var key := Trim(c.id);
    if key !in w.records then (w, Some(NotFound))
    else if !ProposalOk(rec.proposal) then (w, Some(Invalid))
    else (w.(records := w.records[key := Noted(rec, r, e, c)]), e)
  }

  /** The error of applying the proposal, as its result shows it. */
  function RunError(p: Proposal, confirmed: bool, r: ApplyResult): Option<Error> {
    if !ProposalOk(p) then Some(Invalid)
    else if !confirmed then Some(Conflict)
    else if r.applied || r.actions == [] then None
    else r.actions[|r.actions| - 1].error
  }

  /** The world when the outcome of the call is about to be written back. */
  function Reached(w: World, c: Call, r: ApplyResult): World
    requires Tries(w, c) && |r.actions| <= |w.records[Trim(c.id)].proposal.actions|
  {
    Upto(w, w.records[Trim(c.id)].proposal.actions, c.schedule, |r.actions|)
  }

  /** What a call of `ApplyAssistantProposalRecord` does: result, error and new world. */
  predicate Called(w: World, c: Call, r: ApplyResult, e: Option<Error>, w': World) {
    var key := Trim(c.id);
    if key == Blank then r == NO_RESULT && e == Some(Invalid) && w' == w
    else if key !in w.records then r == NO_RESULT && e == Some(NotFound) && w' == w
    else
      var rec := w.records[key];
      if Spent(rec) then r == SpentResult(rec) && e == Some(Conflict) && w' == w
      else
        var err := RunError(rec.proposal, c.confirmed, r);
        && |r.actions| <= |rec.proposal.actions|
        && Ran(w, c, r, err, Reached(w, c, r))
        && (w', e) == WrittenBack(rec, c, r, err, Reached(w, c, r))
  }

  /** Every call has an outcome. */
  lemma PrefixExists(w: World, p: Proposal, s: Schedule) returns (r: ApplyResult, e: Option<Error>)
    ensures |r.actions| <= |p.actions| && PrefixRan(w, p, s, r, e, Upto(w, p.actions, s, |r.actions|))
    ensures e == (if r.applied || r.actions == [] then None else r.actions[|r.actions| - 1].error)
  {
    hide Upto, ReplyTo;
    var n, c: nat := |p.actions|, 0;
    while c < n && !ReplyTo(w, p.actions, s, c).Refused?
      invariant c <= n && forall i: nat :: i < c ==> !ReplyTo(w, p.actions, s, i).Refused?
    {
      c := c + 1;
    }
    var done := seq(c, _ => ActionResult(true, None));
    r := NO_RESULT.(proposalId := p.id, confirmed := true, totalActionCount := n, appliedActionCount := c);
    if c == n {
      r, e := r.(status := Applied, applied := true, actions := done), None;
    } else {
      e := Some(ReplyTo(w, p.actions, s, c).error);
      r := r.(status := if c == 0 then Rejected else Partial, failedActionIndex := Some(c),
              actions := done + [ActionResult(false, e)]);
    }
  }

  lemma OutcomeExists(w: World, c: Call) returns (r: ApplyResult, e: Option<Error>, w': World)
    ensures Called(w, c, r, e, w')
  {
    hide Upto, ReplyTo, ProposalOk;
    var key := Trim(c.id);
    r, e, w' := NO_RESULT, Some(if key == Blank then Invalid else NotFound), w;
    if key != Blank && key in w.records {
      var rec := w.records[key];
      if Spent(rec) {
        r, e := SpentResult(rec), Some(Conflict);
      } else {
        if ProposalOk(rec.proposal) && c.confirmed {
          r, e := PrefixExists(w, rec.proposal, c.schedule);
        } else {
          r := if ProposalOk(rec.proposal) then AskedToConfirm(rec.proposal) else NO_RESULT;
        }
        var written := WrittenBack(rec, c, r, RunError(rec.proposal, c.confirmed, r), Reached(w, c, r));
        w', e := written.0, written.1;
      }
    }
  }

  // ---------------------------------------------------------------- the ledger

  lemma NotedIsOk(rec: ProposalRecord, r: ApplyResult, e: Option<Error>, c: Call)
    requires RecordOk(rec)
    ensures RecordOk(Noted(rec, r, e, c)) <==> Trim(r.proposalId) != Blank
  {
    TrimIsPlain(r.proposalId);
    var attempts := Noted(rec, r, e, c).attempts;
    assert AttemptOk(attempts[|rec.attempts|]) <==> Trim(r.proposalId) != Blank;
  }

  /** Normalizing changes nothing in a stored record that takes a note. */
  lemma NotedIsStored(k: Id, rec: ProposalRecord, r: ApplyResult, e: Option<Error>, c: Call, newId: FreshId)
    requires RecordStored(k, rec)
    ensures Normalized(Noted(rec, r, e, c), newId) == Noted(rec, r, e, c)
    ensures RecordStored(k, Noted(rec, r, e, c)) <==> Trim(r.proposalId) != Blank
  {
    NotedIsOk(rec, r, e, c);
  }

  /** Writing an outcome back fails exactly when the record is gone, or when the stored
      proposal was not fit to be applied. */
  lemma WriteBackMeans(key: Id, rec: ProposalRecord, r: ApplyResult, e: Option<Error>, c: Call, records: Records)
    requires RecordStored(key, rec)
    requires if ProposalOk(rec.proposal) then r.proposalId == rec.proposal.id else r == NO_RESULT
    ensures UpdateRecord(records, Noted(rec, r, e, c), Word(0)) ==
      if key !in records then Err(NotFound)
      else if !ProposalOk(rec.proposal) then Err(Invalid)
      else Ok(records[key := Noted(rec, r, e, c)])
  {
    hide ProposalOk, ShapeOk;
    NotedIsStored(key, rec, r, e, c, Word(0));
  }

  /** The service with its proposal ledger, over a store that others use as well. */
  class Ledger {
    var state: State
    var records: Records

    ghost predicate Valid()
      reads this
    {
      LedgerOk(records)
    }

    ghost function View(): World
      reads this
    {
      World(state, records)
    }

    constructor (state: State)
      ensures Valid() && View() == World(state, map[])
    {
      this.state := state;
      records := map[];
    }

    /** `MemoryStore.CreateAssistantProposal`. */
    method CreateRecord(rec: ProposalRecord, newId: FreshId) returns (e: Option<Error>)
      modifies this`records
      ensures After(old(records), Assistant.CreateRecord(old(records), rec, newId)) == records
      ensures e == ErrorOf(Assistant.CreateRecord(old(records), rec, newId))
    {
      var r := Normalized(rec, newId);
      if !RecordOk(r) { return Some(Invalid); }
      if r.id in records { return Some(Duplicate); }
      records := records[r.id := r];
      return None;
    }

    /** `MemoryStore.UpdateAssistantProposal`. */
    method UpdateRecord(rec: ProposalRecord, newId: FreshId) returns (e: Option<Error>)
      modifies this`records
      ensures After(old(records), Assistant.UpdateRecord(old(records), rec, newId)) == records
      ensures e == ErrorOf(Assistant.UpdateRecord(old(records), rec, newId))
    {
      if rec.id !in records { return Some(NotFound); }
      var r := Normalized(rec, newId);
      if !RecordOk(r) { return Some(Invalid); }
      records := records[r.id := r];
      return None;
    }

    /** `Service.CreateAssistantProposal`. */
    method CreateProposal(input: Proposal, newId: FreshId, now: Time) returns (e: Option<Error>)
      modifies this`records
      ensures After(old(records), ProposeOn(old(records), input, newId, now)) == records
      ensures e == ErrorOf(ProposeOn(old(records), input, newId, now))
    {
      var p := Tidied(input, newId);
      if !ProposalOk(p) { return Some(Invalid); }
      e := CreateRecord(Normalized(FreshRecord(p, now), newId), newId);
    }

    /** `Service.ImportAssistantProposalRecord`. */
    method ImportRecord(input: ProposalRecord, newId: FreshId) returns (e: Option<Error>)
      modifies this`records
      ensures After(old(records), ImportOn(old(records), input, newId)) == records
      ensures e == ErrorOf(ImportOn(old(records), input, newId))
    {
      var r := Normalized(input, newId);
      if !RecordOk(r) { return Some(Invalid); }
      if r.id !in records {
        e := CreateRecord(r, newId);
      } else {
        e := UpdateRecord(r, newId);
      }
    }

    /** The loop of `DeleteProject` over the proposal records. */
    method SweepRecords(projectId: Id)
      modifies this`records
      ensures records == Spared(old(records), projectId)
    {
      var rest := records.Keys;
      while rest != {}
        invariant rest <= old(records).Keys
        invariant records == map k | k in old(records)
                               && (k in rest || old(records)[k].projectId != projectId) :: old(records)[k]
      {
        var k :| k in rest;
        rest := rest - {k};
        if records[k].projectId == projectId {
          records := records - {k};
        }
      }
    }

    /** One event on the store; deleting a project sweeps its proposal records too. */
    method Store(e: Event) returns (reply: Reply)
      modifies this
      ensures reply == Apply(old(state), e).reply
      ensures View() == Perform(old(View()), OnStore(e))
    {
      var o := Apply(state, e);
      if e.op.OpDeleteProject? && e.op.projectId in state.projects.rows {
        SweepRecords(e.op.projectId);
      }
      state := o.state;
      reply := o.reply;
    }

    /** What the other callers do. */
    method Serve(acts: seq<Act>)
      modifies this
      ensures View() == Performed(old(View()), acts)
    {
      for i := 0 to |acts|
        invariant View() == Performed(old(View()), acts[..i])
      {
        hide StoreModel.Apply;
        assert acts[..i + 1][..i] == acts[..i];
        match acts[i] {
          case OnStore(e) => var reply := Store(e);
          case Propose(p, newId, now) => var e := CreateProposal(p, newId, now);
          case Import(rec, newId) => var e := ImportRecord(rec, newId);
        }
      }
      assert acts[..|acts|] == acts;
    }

    /** `ApplyAssistantProposal`. */
    method ApplyProposal(p: Proposal, confirmed: bool, s: Schedule) returns (r: ApplyResult, e: Option<Error>)
      modifies this
      ensures |r.actions| <= |p.actions|
      ensures !ProposalOk(p) ==> r == NO_RESULT && e == Some(Invalid)
      ensures ProposalOk(p) && !confirmed ==> r == AskedToConfirm(p) && e == Some(Conflict)
      ensures !(ProposalOk(p) && confirmed) ==> View() == Upto(old(View()), p.actions, s, 0)
      ensures ProposalOk(p) && confirmed ==> PrefixRan(old(View()), p, s, r, e, View())
    {
      hide Perform, StoreModel.Apply, ProposalOk;
      Serve(s.others(0));
      if !ProposalOk(p) {
        return NO_RESULT, Some(Invalid);
      }
      if !confirmed {
        return AskedToConfirm(p), Some(Conflict);
      }
      r := NO_RESULT.(proposalId := p.id, status := Applied, confirmed := true, totalActionCount := |p.actions|);
      for i := 0 to |p.actions|
        invariant r == NO_RESULT.(proposalId := p.id, status := Applied, confirmed := true,
                                  totalActionCount := |p.actions|, appliedActionCount := i, actions := r.actions)
        invariant |r.actions| == i && forall j :: 0 <= j < i ==> r.actions[j] == ActionResult(true, None)
        invariant forall j: nat :: j < i ==> !ReplyTo(old(View()), p.actions, s, j).Refused?
        invariant View() == Upto(old(View()), p.actions, s, i)
      {
        hide Upto;
        UptoNext(old(View()), p.actions, s, i);
        var reply := Store(Event(p.actions[i], s.clock(i)));
        Serve(s.others(i + 1));
        if reply.Refused? {
          e := Some(reply.error);
          r := r.(actions := r.actions + [ActionResult(false, e)],
                  status := if r.appliedActionCount == 0 then Rejected else Partial,
                  failedActionIndex := Some(i));
          return r, e;
        }
        r := r.(actions := r.actions + [ActionResult(true, None)], appliedActionCount := r.appliedActionCount + 1);
      }
      r := r.(applied := true);
      e := None;
    }

    /** `ApplyAssistantProposalRecord`. */
    method ApplyRecord(c: Call) returns (r: ApplyResult, e: Option<Error>)
      requires Valid()
      modifies this
      ensures Called(old(View()), c, r, e, View())
    {
      hide StoreModel.Apply, Perform, Upto, ReplyTo, ProposalOk, Noted, Assistant.UpdateRecord;
      var key := Trim(c.id);
      if key == Blank {
        return NO_RESULT, Some(Invalid);
      }
      if key !in records {
        return NO_RESULT, Some(NotFound);
      }
      var rec := records[key];
      if rec.latestResult.Some? && rec.latestResult.value.applied {
        return rec.latestResult.value, Some(Conflict);
      }
      if rec.status == Applied {
        return SpentResult(rec), Some(Conflict);
      }
      r, e := ApplyProposal(rec.proposal, c.confirmed, c.schedule);
      WriteBackMeans(key, rec, r, e, c, records);
      var written := UpdateRecord(Noted(rec, r, e, c), Word(0));
      if written.Some? {
        e := written;
      }
    }
  }

  function ErrorOf<T>(r: Result<T>): Option<Error> {
    if r.Err? then Some(r.error) else None
  }
}
