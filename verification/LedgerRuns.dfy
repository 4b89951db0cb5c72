/** Many callers and many applications: when a record is lost, and when it can succeed
    again. */
module LedgerRuns {
  import opened Domain
  import opened StoreModel
  import opened Assistant
  import opened AssistantLedger

  // ---------------------------------------------------------------- sequences of acts

  lemma {:induction false} LedgerStaysOk(w: World, acts: seq<Act>)
    requires LedgerOk(w.records)
    ensures LedgerOk(Performed(w, acts).records)
  {
    hide Perform;
    if acts != [] {
      var n := |acts| - 1;
      LedgerStaysOk(w, acts[..n]);
      forall key | key in Performed(w, acts).records
        ensures RecordStored(key, Performed(w, acts).records[key])
      {
        ActOnRecord(Performed(w, acts[..n]), acts[n], key);
      }
    }
  }

  predicate Files(a: Act, key: Id) {
    Imports(a, key) || Proposes(a, key)
  }

  /** Act `i` deletes the project of the record, and nothing files the record again. */
  predicate LostAt(w: World, acts: seq<Act>, key: Id, i: nat)
    requires i < |acts|
  {
    && Deletes(Performed(w, acts[..i]), acts[i], key)
    && forall j: nat :: i < j < |acts| ==> !Files(acts[j], key)
  }

  predicate Lost(w: World, acts: seq<Act>, key: Id) {
    exists i: nat :: i < |acts| && LostAt(w, acts, key, i)
  }

  lemma LostNext(w: World, acts: seq<Act>, key: Id)
    requires acts != []
    ensures var n := |acts| - 1;
      Lost(w, acts, key) <==>
        Deletes(Performed(w, acts[..n]), acts[n], key) || (Lost(w, acts[..n], key) && !Files(acts[n], key))
  {
    hide Performed, Deletes, Imports, Proposes;
    var n := |acts| - 1;
    var front := acts[..n];
    forall i: nat | i < n
      ensures LostAt(w, acts, key, i) <==> LostAt(w, front, key, i) && !Files(acts[n], key)
    {
      assert front[..i] == acts[..i];
    }
    assert LostAt(w, acts, key, n) <==> Deletes(Performed(w, front), acts[n], key);
  }

  /** A record that was there is gone exactly when its project was deleted and the record
      was neither imported nor proposed anew since. */
  lemma {:induction false} GoneExactlyWhen(w: World, acts: seq<Act>, key: Id)
    requires LedgerOk(w.records) && key in w.records
    ensures key !in Performed(w, acts).records <==> Lost(w, acts, key)
  {
    hide Perform, Lost, Deletes, Imports, Proposes;
    if acts == [] {
      NothingLost(w, key);
    } else {
      var n := |acts| - 1;
      GoneExactlyWhen(w, acts[..n], key);
      LedgerStaysOk(w, acts[..n]);
      LostNext(w, acts, key);
      ActOnRecord(Performed(w, acts[..n]), acts[n], key);
      OneKind(Performed(w, acts[..n]), acts[n], key);
    }
  }

  lemma NothingLost(w: World, key: Id)
    ensures !Lost(w, [], key)
  {
  }

  lemma OneKind(w: World, a: Act, key: Id)
    ensures Deletes(w, a, key) ==> !Files(a, key)
    ensures Imports(a, key) ==> a.Import? && !Proposes(a, key)
  {
  }

  /** The act makes a spent record absent or unspent. */
  predicate Reopens(w: World, a: Act, key: Id) {
    Deletes(w, a, key) || (Imports(a, key) && !Spent(Imported(a)))
  }

  /** The record is there and was applied. */
  predicate SpentThere(w: World, key: Id) {
    key in w.records && Spent(w.records[key])
  }

  /** One act takes a spent record out of that condition exactly when it reopens it. */
  lemma ReopensExactlyWhen(w: World, a: Act, key: Id)
    requires LedgerOk(w.records) && SpentThere(w, key)
    ensures SpentThere(Perform(w, a), key) <==> !Reopens(w, a, key)
  {
    hide Perform, Deletes, Imports, Proposes, Imported;
    ActOnRecord(w, a, key);
    OneKind(w, a, key);
  }

  ghost predicate ReopenedIn(w: World, acts: seq<Act>, key: Id) {
    exists i: nat :: i < |acts| && Reopens(Performed(w, acts[..i]), acts[i], key)
  }

  lemma {:induction false} ActsKeepSpent(w: World, acts: seq<Act>, key: Id)
    requires LedgerOk(w.records) && SpentThere(w, key) && !ReopenedIn(w, acts, key)
    ensures SpentThere(Performed(w, acts), key)
  {
    hide Perform, Reopens;
    if acts != [] {
      var n := |acts| - 1;
      forall i: nat | i < n
        ensures !Reopens(Performed(w, acts[..n][..i]), acts[..n][i], key)
      {
        assert acts[..n][..i] == acts[..i];
      }
      ActsKeepSpent(w, acts[..n], key);
      LedgerStaysOk(w, acts[..n]);
      ReopensExactlyWhen(Performed(w, acts[..n]), acts[n], key);
    }
  }

  /** The act imports an applied record. */
  predicate Respends(a: Act, key: Id) {
    Imports(a, key) && Spent(Imported(a))
  }

  /** Act `i` reopens the record and no later one imports an applied record again. */
  predicate OpenSince(w: World, acts: seq<Act>, key: Id, i: nat)
    requires i < |acts|
  {
    Reopens(Performed(w, acts[..i]), acts[i], key) && forall j: nat :: i < j < |acts| ==> !Respends(acts[j], key)
  }

  predicate LeftOpen(w: World, acts: seq<Act>, key: Id) {
    exists i: nat :: i < |acts| && OpenSince(w, acts, key, i)
  }

  lemma LeftOpenNext(w: World, acts: seq<Act>, key: Id)
    requires acts != []
    ensures var n := |acts| - 1;
      LeftOpen(w, acts, key) <==>
        Reopens(Performed(w, acts[..n]), acts[n], key) || (LeftOpen(w, acts[..n], key) && !Respends(acts[n], key))
  {
    hide Performed, Reopens, Respends;
    var n := |acts| - 1;
    var front := acts[..n];
    forall i: nat | i < n
      ensures OpenSince(w, acts, key, i) <==> OpenSince(w, front, key, i) && !Respends(acts[n], key)
    {
      assert front[..i] == acts[..i];
    }
    assert OpenSince(w, acts, key, n) <==> Reopens(Performed(w, front), acts[n], key);
  }

  /** A spent record is still there and spent exactly when no act left it open. */
  lemma {:induction false} SpentExactlyWhen(w: World, acts: seq<Act>, key: Id)
    requires LedgerOk(w.records) && SpentThere(w, key)
    ensures SpentThere(Performed(w, acts), key) <==> !LeftOpen(w, acts, key)
  {
    hide Perform, LeftOpen, Deletes, Imports, Proposes, Imported;
    if acts == [] {
      NothingOpen(w, key);
    } else {
      var n := |acts| - 1;
      SpentExactlyWhen(w, acts[..n], key);
      LedgerStaysOk(w, acts[..n]);
      LeftOpenNext(w, acts, key);
      ActOnRecord(Performed(w, acts[..n]), acts[n], key);
      OneKind(Performed(w, acts[..n]), acts[n], key);
    }
  }

  lemma NothingOpen(w: World, key: Id)
    ensures !LeftOpen(w, [], key)
  {
  }

  /** Any spent record can be imported over by the same proposal, unapplied. */
  lemma AnyRecordCanBeReopened(w: World, key: Id, newId: FreshId) returns (a: Act)
    requires LedgerOk(w.records) && SpentThere(w, key)
    ensures a.Import? && Reopens(w, a, key)
    ensures var w' := Perform(w, a);
      && w'.state == w.state && key in w'.records && !Spent(w'.records[key])
      && w'.records[key].proposal == w.records[key].proposal
  {
    var rec := w.records[key].(latestResult := None, status := Proposed);
    a := Import(rec, newId);
    Unapplied(key, w.records[key], newId);
    ActOnRecord(w, a, key);
  }

  lemma Unapplied(key: Id, rec: ProposalRecord, newId: FreshId)
    requires RecordStored(key, rec)
    ensures var r := rec.(latestResult := None, status := Proposed);
      Normalized(r, newId) == r && RecordOk(r)
  {
  }

  // ---------------------------------------------------------------- calls

  /** Everything that happened in a call before its outcome was written back. */
  function CallTrace(w: World, c: Call, r: ApplyResult): seq<Act> {
    if Tries(w, c) && |r.actions| <= |w.records[Trim(c.id)].proposal.actions| then
      Trace(w.records[Trim(c.id)].proposal.actions, c.schedule, |r.actions|)
    else []
  }

  /** A call touches its own record and, apart from that, does what its trace does. */
  lemma CallOnRecord(w: World, c: Call, r: ApplyResult, e: Option<Error>, w': World, key: Id)
    requires LedgerOk(w.records) && Called(w, c, r, e, w')
    ensures var mid := Performed(w, CallTrace(w, c, r));
      && w'.state == mid.state
      && (key in w'.records <==> key in mid.records)
      && (key in w'.records && !(Tries(w, c) && key == Trim(c.id)) ==> w'.records[key] == mid.records[key])
      && (key in w'.records && Tries(w, c) && key == Trim(c.id) ==>
            var rec := w.records[key];
            w'.records[key] ==
              if ProposalOk(rec.proposal) then Noted(rec, r, RunError(rec.proposal, c.confirmed, r), c)
              else mid.records[key])
  {
    hide ProposalOk, Trace, Perform, ReplyTo;
  }

  /** The outcome of a call that ran anything is lost exactly when, while it ran, the
      project of its record was deleted and the record not filed again. */
  lemma OutcomeLostExactlyWhen(w: World, c: Call, r: ApplyResult, e: Option<Error>, w': World)
    requires LedgerOk(w.records) && Called(w, c, r, e, w') && Tries(w, c)
    ensures var key := Trim(c.id); var rec := w.records[key];
      && (key !in w'.records <==> Lost(w, CallTrace(w, c, r), key))
      && (key !in w'.records ==> e == Some(NotFound))
      && (key in w'.records && ProposalOk(rec.proposal) ==>
            && e == RunError(rec.proposal, c.confirmed, r)
            && w'.records[key] == Noted(rec, r, e, c))
  {
    hide ProposalOk, Trace, Perform, ReplyTo, Lost;
    CallOnRecord(w, c, r, e, w', Trim(c.id));
    GoneExactlyWhen(w, CallTrace(w, c, r), Trim(c.id));
  }

  /** A call succeeds exactly when the record is there, unspent and fit, the call is
      confirmed, the store accepts every action, and the record outlives them. */
  lemma CallSucceedsExactlyWhen(w: World, c: Call, r: ApplyResult, e: Option<Error>, w': World)
    requires LedgerOk(w.records) && Called(w, c, r, e, w')
    ensures e.None? <==>
      && Tries(w, c) && c.confirmed
      && var p := w.records[Trim(c.id)].proposal;
         && ProposalOk(p)
         && (forall i: nat :: i < |p.actions| ==> !ReplyTo(w, p.actions, c.schedule, i).Refused?)
         && Trim(c.id) in Upto(w, p.actions, c.schedule, |p.actions|).records
  {
    hide ProposalOk, Upto, ReplyTo;
  }

  /** What a call records of what it did. The status is applied, partial or rejected by how
      many of the actions were accepted, or says that it was never confirmed; the latest
      result is the one returned; the time of success is noted on success alone; and one
      attempt is appended, with the confirmation, error and time of this call. */
  lemma OutcomeRecorded(w: World, c: Call, r: ApplyResult, e: Option<Error>, w': World)
    requires LedgerOk(w.records) && Called(w, c, r, e, w') && Tries(w, c)
    requires ProposalOk(w.records[Trim(c.id)].proposal) && Trim(c.id) in w'.records
    ensures var rec, rec' := w.records[Trim(c.id)], w'.records[Trim(c.id)];
      var all, done := |rec.proposal.actions|, r.appliedActionCount;
      && rec'.status == (if !c.confirmed then NeedsConfirmation
                         else if done == all then Applied
                         else if done == 0 then Rejected
                         else Partial)
      && (e.None? <==> c.confirmed && done == all)
      && rec'.latestResult == Some(r)
      && rec'.appliedAt == (if e.None? then Some(c.recordedAt) else rec.appliedAt)
      && rec'.updatedAt == c.recordedAt
      && rec'.attempts == rec.attempts + [Attempt(rec.id, rec'.status, c.confirmed, r, e, c.attemptedAt)]
      && rec'.id == rec.id && rec'.projectId == rec.projectId && rec'.proposal == rec.proposal
  {
    RanMeans(w, c, r, e, w');
    OutcomeLostExactlyWhen(w, c, r, e, w');
    hide ProposalOk, ReplyTo, Upto, Called, Lost;
  }

  /** The result of a call that found its record fit to be applied. */
  lemma RanMeans(w: World, c: Call, r: ApplyResult, e: Option<Error>, w': World)
    requires LedgerOk(w.records) && Called(w, c, r, e, w') && Tries(w, c)
    requires ProposalOk(w.records[Trim(c.id)].proposal)
    ensures var rec := w.records[Trim(c.id)]; var all, done := |rec.proposal.actions|, r.appliedActionCount;
      && all > 0 && rec.id == rec.proposal.id == Trim(c.id) && Trim(rec.id) == rec.id
      && r.proposalId == rec.id && r.totalActionCount == all && r.confirmed == c.confirmed
      && (r.applied <==> c.confirmed && done == all)
      && (!c.confirmed ==> done == 0 && r.actions == [] && r.status == NeedsConfirmation)
      && (c.confirmed ==> done <= all
                          && r.status == if done == all then Applied else if done == 0 then Rejected else Partial)
      && (RunError(rec.proposal, c.confirmed, r).None? <==> r.applied)
  {
    TrimIsPlain(c.id);
    TrimIsPlain(w.records[Trim(c.id)].proposal.id);
    HasActions(w.records[Trim(c.id)].proposal);
    hide ProposalOk, ReplyTo, Upto;
  }

  lemma HasActions(p: Proposal)
    requires ProposalOk(p)
    ensures |p.actions| > 0
  {
  }

  /** A call on a record that was applied, by its latest result or by its status, is refused
      with what the record reports, and nothing changes. */
  lemma SpentAnswers(w: World, c: Call, r: ApplyResult, e: Option<Error>, w': World)
    requires Called(w, c, r, e, w') && Trim(c.id) != Blank && Trim(c.id) in w.records
    requires var rec := w.records[Trim(c.id)];
      rec.status == Applied || (rec.latestResult.Some? && rec.latestResult.value.applied)
    ensures e == Some(Conflict) && w' == w
    ensures var rec := w.records[Trim(c.id)];
      && (rec.latestResult.Some? ==> r == rec.latestResult.value)
      && (rec.latestResult.None? ==> r.applied && r.status == Applied && r.proposalId == rec.id && r.actions == [])
  {
  }

  /** The call is confirmed, and if its record is there then its proposal is fit, the store
      accepts every action, and the record outlives them. */
  predicate Sound(w: World, c: Call) {
    && c.confirmed && Trim(c.id) != Blank
    && (Trim(c.id) in w.records ==>
          var p := w.records[Trim(c.id)].proposal;
          && ProposalOk(p)
          && (forall i: nat :: i < |p.actions| ==> !ReplyTo(w, p.actions, c.schedule, i).Refused?)
          && Trim(c.id) in Upto(w, p.actions, c.schedule, |p.actions|).records)
  }

  /** After a record was applied and others acted, a sound call on it succeeds if and only
      if one of them left the record open, by an import of an unapplied record or a deletion
      of its project, and the record is there: not lost to a deletion for good. */
  lemma SucceedsAgainExactlyWhen(w: World, acts: seq<Act>, c: Call, r: ApplyResult, e: Option<Error>, w': World)
    requires LedgerOk(w.records) && SpentThere(w, Trim(c.id))
    requires Sound(Performed(w, acts), c) && Called(Performed(w, acts), c, r, e, w')
    ensures e.None? <==> LeftOpen(w, acts, Trim(c.id)) && !Lost(w, acts, Trim(c.id))
  {
    hide ProposalOk, Upto, ReplyTo, Performed, LeftOpen, Lost, LedgerOk, Called;
    LedgerStaysOk(w, acts);
    SpentExactlyWhen(w, acts, Trim(c.id));
    GoneExactlyWhen(w, acts, Trim(c.id));
    CallSucceedsExactlyWhen(Performed(w, acts), c, r, e, w');
  }

  /** A successful call leaves its record spent. */
  lemma SuccessSpends(w: World, c: Call, r: ApplyResult, e: Option<Error>, w': World)
    requires LedgerOk(w.records) && Called(w, c, r, e, w') && e.None?
    ensures SpentThere(w', Trim(c.id))
  {
    hide ProposalOk, Upto, ReplyTo;
  }

  lemma CallKeepsLedger(w: World, c: Call, r: ApplyResult, e: Option<Error>, w': World)
    requires LedgerOk(w.records) && Called(w, c, r, e, w')
    ensures LedgerOk(w'.records)
  {
    hide ProposalOk, Trace, Perform, ReplyTo, RecordStored;
    LedgerStaysOk(w, CallTrace(w, c, r));
    forall key | key in w'.records
      ensures RecordStored(key, w'.records[key])
    {
      CallOnRecord(w, c, r, e, w', key);
      if Tries(w, c) && key == Trim(c.id) && ProposalOk(w.records[key].proposal) {
        RanNamesProposal(w, c, r, e, w');
        NotedIsStored(key, w.records[key], r, RunError(w.records[key].proposal, c.confirmed, r), c, Word(0));
      }
    }
  }

  lemma RanNamesProposal(w: World, c: Call, r: ApplyResult, e: Option<Error>, w': World)
    requires LedgerOk(w.records) && Called(w, c, r, e, w') && Tries(w, c)
    requires ProposalOk(w.records[Trim(c.id)].proposal)
    ensures Trim(r.proposalId) != Blank
  {
    hide ProposalOk, Upto, ReplyTo;
  }

  // ---------------------------------------------------------------- histories

  /** One thing that happens: some caller's act, or a call with its outcome. */
  datatype Entry = Did(act: Act) | Tried(call: Call, result: ApplyResult, error: Option<Error>)

  predicate Happens(w: World, x: Entry, w': World) {
    match x
    case Did(a) => w' == Perform(w, a)
    case Tried(c, r, e) => Called(w, c, r, e, w')
  }

  function ActsOf(w: World, x: Entry): seq<Act> {
    match x
    case Did(a) => [a]
    case Tried(c, r, e) => CallTrace(w, c, r)
  }

  ghost predicate History(worlds: seq<World>, log: seq<Entry>) {
    && |worlds| == |log| + 1
    && LedgerOk(worlds[0].records)
    && forall i :: 0 <= i < |log| ==> Happens(worlds[i], log[i], worlds[i + 1])
  }

  /** While entry `m` happened, some act reopened the record. */
  ghost predicate Reopened(worlds: seq<World>, log: seq<Entry>, m: nat, key: Id)
    requires |worlds| == |log| + 1 && m < |log|
  {
    ReopenedIn(worlds[m], ActsOf(worlds[m], log[m]), key)
  }

  lemma {:induction false} HistoryKeepsLedger(worlds: seq<World>, log: seq<Entry>, i: nat)
    requires History(worlds, log) && i < |worlds|
    ensures LedgerOk(worlds[i].records)
  {
    hide Perform, Called, LedgerOk;
    if i > 0 {
      HistoryKeepsLedger(worlds, log, i - 1);
      assert Happens(worlds[i - 1], log[i - 1], worlds[i]);
      match log[i - 1]
      case Did(a) =>
        LedgerStaysOk(worlds[i - 1], [a]);
        assert Performed(worlds[i - 1], [a]) == Perform(worlds[i - 1], a) by { PerformedOne(worlds[i - 1], a); }
      case Tried(c, r, e) => CallKeepsLedger(worlds[i - 1], c, r, e, worlds[i]);
    }
  }

  lemma PerformedOne(w: World, a: Act)
    ensures Performed(w, [a]) == Perform(w, a)
  {
    hide Perform;
    assert [a][..0] == [];
    assert Performed(w, []) == w;
  }

  lemma StepKeepsSpent(w: World, x: Entry, w': World, key: Id)
    requires LedgerOk(w.records) && Happens(w, x, w') && SpentThere(w, key)
    requires !ReopenedIn(w, ActsOf(w, x), key)
    ensures SpentThere(w', key)
    ensures x.Tried? && Trim(x.call.id) == key && key != Blank ==> x.error == Some(Conflict) && w' == w
  {
    hide Perform, ReopenedIn, CallTrace, Ran, WrittenBack;
    ActsKeepSpent(w, ActsOf(w, x), key);
    match x
    case Did(a) => PerformedOne(w, a);
    case Tried(c, r, e) => CallOnRecord(w, c, r, e, w', key);
  }

  /** Once a record is applied it stays so, and every later call on it conflicts, runs
      nothing and changes nothing, until some act reopens it. */
  lemma {:induction false} SpentUntilReopened(worlds: seq<World>, log: seq<Entry>, i: nat, j: nat, key: Id)
    requires History(worlds, log) && i <= j < |worlds| && SpentThere(worlds[i], key) && key != Blank
    requires forall m: nat :: i <= m < j ==> !Reopened(worlds, log, m, key)
    ensures SpentThere(worlds[j], key)
    ensures forall m: nat :: i <= m < j && log[m].Tried? && Trim(log[m].call.id) == key ==>
      log[m].error == Some(Conflict) && worlds[m + 1] == worlds[m]
    decreases j
  {
    hide Happens, ReopenedIn, ActsOf, SpentThere, LedgerOk;
    if i < j {
      SpentUntilReopened(worlds, log, i, j - 1, key);
      HistoryKeepsLedger(worlds, log, j - 1);
      assert !Reopened(worlds, log, j - 1, key);
      StepKeepsSpent(worlds[j - 1], log[j - 1], worlds[j], key);
    }
  }

  predicate Succeeds(x: Entry, key: Id) {
    x.Tried? && Trim(x.call.id) == key && x.error.None?
  }

  /** Between two successes of one record some act reopened it: a deletion of its project,
      or an import of a record that was not applied. */
  lemma SucceedsAgainOnlyIfReopened(worlds: seq<World>, log: seq<Entry>, i: nat, j: nat, key: Id)
    requires History(worlds, log) && i < j < |log| && Succeeds(log[i], key) && Succeeds(log[j], key)
    ensures exists m: nat :: i < m < j && Reopened(worlds, log, m, key)
  {
    hide Reopened, SpentThere, LedgerOk;
    HistoryKeepsLedger(worlds, log, i);
    assert Happens(worlds[i], log[i], worlds[i + 1]);
    SuccessSpends(worlds[i], log[i].call, log[i].result, log[i].error, worlds[i + 1]);
    if forall m: nat :: i < m < j ==> !Reopened(worlds, log, m, key) {
      HistoryKeepsLedger(worlds, log, j);
      assert Happens(worlds[j], log[j], worlds[j + 1]);
      NamedSuccess(worlds[j], log[j], worlds[j + 1]);
      SpentUntilReopened(worlds, log, i + 1, j, key);
      SpentRefuses(worlds[j], log[j], worlds[j + 1]);
    }
  }

  lemma NamedSuccess(w: World, x: Entry, w': World)
    requires LedgerOk(w.records) && x.Tried? && Happens(w, x, w') && x.error.None?
    ensures Trim(x.call.id) != Blank
  {
  }

  lemma SpentRefuses(w: World, x: Entry, w': World)
    requires x.Tried? && Happens(w, x, w') && SpentThere(w, Trim(x.call.id))
    ensures x.error.Some?
  {
  }

  // ---------------------------------------------------------------- attempts

  /** The act removes or replaces the record. */
  predicate Disturbs(w: World, a: Act, key: Id) {
    Deletes(w, a, key) || Imports(a, key)
  }

  ghost predicate DisturbedIn(w: World, acts: seq<Act>, key: Id) {
    exists i: nat :: i < |acts| && Disturbs(Performed(w, acts[..i]), acts[i], key)
  }

  lemma {:induction false} ActsKeepRecord(w: World, acts: seq<Act>, key: Id)
    requires LedgerOk(w.records) && key in w.records && !DisturbedIn(w, acts, key)
    ensures key in Performed(w, acts).records && Performed(w, acts).records[key] == w.records[key]
  {
    hide Perform, Disturbs;
    if acts != [] {
      var n := |acts| - 1;
      forall i: nat | i < n
        ensures !Disturbs(Performed(w, acts[..n][..i]), acts[..n][i], key)
      {
        assert acts[..n][..i] == acts[..i];
      }
      ActsKeepRecord(w, acts[..n], key);
      LedgerStaysOk(w, acts[..n]);
      ActOnRecord(Performed(w, acts[..n]), acts[n], key);
      DisturbsMeans(Performed(w, acts[..n]), acts[n], key);
    }
  }

  lemma DisturbsMeans(w: World, a: Act, key: Id)
    ensures Disturbs(w, a, key) <==> Deletes(w, a, key) || Imports(a, key)
  {
  }

  predicate Extends(rec: ProposalRecord, rec': ProposalRecord, n: nat) {
    && |rec.attempts| <= |rec'.attempts| <= |rec.attempts| + n
    && rec'.attempts[..|rec.attempts|] == rec.attempts
  }

  /** While a record is neither removed nor replaced, attempts are only appended to it, at
      most one a call. */
  lemma {:induction false} AttemptsOnlyGrow(worlds: seq<World>, log: seq<Entry>, i: nat, j: nat, key: Id)
    requires History(worlds, log) && i <= j < |worlds| && key in worlds[i].records
    requires forall m: nat :: i <= m < j ==> !DisturbedIn(worlds[m], ActsOf(worlds[m], log[m]), key)
    ensures key in worlds[j].records && Extends(worlds[i].records[key], worlds[j].records[key], j - i)
    decreases j
  {
    hide Happens, DisturbedIn, ActsOf, LedgerOk;
    if i < j {
      AttemptsOnlyGrow(worlds, log, i, j - 1, key);
      HistoryKeepsLedger(worlds, log, j - 1);
      StepKeepsAttempts(worlds[j - 1], log[j - 1], worlds[j], key);
    }
  }

  lemma StepKeepsAttempts(w: World, x: Entry, w': World, key: Id)
    requires LedgerOk(w.records) && Happens(w, x, w') && key in w.records
    requires !DisturbedIn(w, ActsOf(w, x), key)
    ensures key in w'.records && Extends(w.records[key], w'.records[key], 1)
  {
    hide Perform, DisturbedIn, CallTrace, Called;
    ActsKeepRecord(w, ActsOf(w, x), key);
    match x
    case Did(a) => PerformedOne(w, a);
    case Tried(c, r, e) => CallOnRecord(w, c, r, e, w', key);
  }
}
