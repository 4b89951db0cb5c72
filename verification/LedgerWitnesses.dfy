/** Concrete histories of the proposal ledger: an outcome that is lost, and a proposal that
    succeeds twice. */
module LedgerWitnesses {
  import opened Domain
  import opened StoreModel
  import opened Assistant
  import opened AssistantLedger
  import opened LedgerRuns
  import opened Witnesses

  const ID := Word(20)
  const TOUCH := OpUpdateProject(PROJECT)
  const PROPOSAL := Proposal(ID, P, Word(21), [TOUCH])
  const SUGGESTION := Propose(PROPOSAL, Word(22), 1)
  const RECORD := FreshRecord(PROPOSAL, 1)
  const DELETION := OnStore(Event(OpDeleteProject(P), 1))
  const CREATION := OnStore(Event(OpCreateProject(PROJECT), 1))

  const QUIET := Schedule(_ => [], _ => 1)
  const DISTURBED := Schedule(n => if n == 1 then [DELETION] else [], _ => 1)

  function Confirm(s: Schedule): Call {
    Call(ID, true, s, 2, 3)
  }

  /** The project is there, and so is the unapplied proposal to touch it. */
  predicate Ready(w: World) {
    P in w.state.projects.rows && ID in w.records && RecordStored(ID, w.records[ID])
    && w.records[ID].proposal == PROPOSAL && w.records[ID].projectId == P && !Spent(w.records[ID])
  }

  lemma ProposalIsOk()
    ensures ProposalOk(PROPOSAL) && ShapeOk(PROPOSAL)
    ensures Tidied(PROPOSAL, Word(22)) == PROPOSAL
    ensures Normalized(RECORD, Word(22)) == RECORD && RecordStored(ID, RECORD)
  {
    OnlyTokensCanBeMissing(PROPOSAL);
  }

  lemma SuggestionGivesReady(s: State)
    requires P in s.projects.rows
    ensures Perform(World(s, map[]), SUGGESTION) == World(s, map[ID := RECORD])
    ensures Ready(World(s, map[ID := RECORD])) && LedgerOk(map[ID := RECORD]) && LedgerOk(map[])
  {
    ProposalIsOk();
  }

  /** The one action is accepted, and changes no record. */
  lemma ActionAccepted(w: World)
    requires Ready(w)
    ensures var own := OnStore(Event(TOUCH, 1));
      && Apply(w.state, Event(TOUCH, 1)).reply == Done
      && Perform(w, own).records == w.records && P in Perform(w, own).state.projects.rows
  {
  }

  lemma Traces(s: Schedule)
    requires s == QUIET || s == DISTURBED
    ensures Trace([TOUCH], s, 0) == []
    ensures Trace([TOUCH], s, 1) == [OnStore(Event(TOUCH, 1))] + s.others(1)
  {
    assert Trace([TOUCH], s, 0) == [];
    assert [] + [OnStore(Event(TOUCH, 1))] == [OnStore(Event(TOUCH, 1))];
  }

  lemma PerformedTwo(w: World, a: Act, b: Act)
    ensures Performed(w, [a, b]) == Perform(Perform(w, a), b)
  {
    hide Perform;
    PerformedOne(w, a);
    assert [a, b][..1] == [a];
  }

  /** A confirmed call on a ready world, with nobody else about, succeeds. */
  lemma QuietCallSucceeds(w: World) returns (r: ApplyResult, e: Option<Error>, w': World)
    requires LedgerOk(w.records) && Ready(w)
    ensures Called(w, Confirm(QUIET), r, e, w') && e.None?
    ensures LedgerOk(w'.records) && SpentThere(w', ID) && P in w'.state.projects.rows
    ensures w'.records[ID].proposal == PROPOSAL && w'.records[ID].projectId == P
  {
    var c := Confirm(QUIET);
    r, e, w' := OutcomeExists(w, c);
    ProposalIsOk();
    ActionAccepted(w);
    Traces(QUIET);
    PerformedOne(w, OnStore(Event(TOUCH, 1)));
    assert [OnStore(Event(TOUCH, 1))] + [] == [OnStore(Event(TOUCH, 1))];
    hide Perform, StoreModel.Apply, ProposalOk, ShapeOk;
    assert Upto(w, [TOUCH], QUIET, 0) == w;
    CallSucceedsExactlyWhen(w, c, r, e, w');
    SuccessSpends(w, c, r, e, w');
    CallKeepsLedger(w, c, r, e, w');
    CallOnRecord(w, c, r, e, w', ID);
  }

  /** If the project is deleted while the one action runs, the action takes effect and its
      success is not recorded: the call reports that the record is gone. */
  lemma OutcomeCanBeLost(s: State) returns (w: World, r: ApplyResult, e: Option<Error>, w': World)
    requires P in s.projects.rows
    ensures w == World(s, map[ID := RECORD]) && Called(w, Confirm(DISTURBED), r, e, w')
    ensures r.applied && r.appliedActionCount == 1 && e == Some(NotFound) && ID !in w'.records
  {
    w := World(s, map[ID := RECORD]);
    SuggestionGivesReady(s);
    var c := Confirm(DISTURBED);
    r, e, w' := OutcomeExists(w, c);
    ProposalIsOk();
    ActionAccepted(w);
    Traces(DISTURBED);
    var own := OnStore(Event(TOUCH, 1));
    assert [own] + [DELETION] == [own, DELETION];
    PerformedTwo(w, own, DELETION);
    DeletionRemoves(Perform(w, own));
    hide Perform, StoreModel.Apply, ProposalOk, ShapeOk;
    assert Upto(w, [TOUCH], DISTURBED, 0) == w;
    assert Upto(w, [TOUCH], DISTURBED, 1) == Perform(Perform(w, own), DELETION);
  }

  lemma DeletionRemoves(w: World)
    requires Ready(w)
    ensures ID !in Perform(w, DELETION).records && Deletes(w, DELETION, ID)
  {
  }

  /** A proposal to update a handoff without a token: fit to be stored, not to be applied. */
  const TOKENLESS := Proposal(ID, P, Word(21), [OpPatchHandoff(P, W1, H, HandoffUpdate(ZERO_TIME, DISMISSAL))])

  /** Importing it works, and applying it is refused without a trace. */
  lemma TokenlessRecordsNothing(s: State, r: ApplyResult, e: Option<Error>, w': World)
    requires var w := Perform(World(s, map[]), Import(FreshRecord(TOKENLESS, 1), Word(22)));
      Called(w, Confirm(QUIET), r, e, w')
    ensures var w := Perform(World(s, map[]), Import(FreshRecord(TOKENLESS, 1), Word(22)));
      ID in w.records && r == NO_RESULT && e == Some(Invalid) && w' == w
  {
    OnlyTokensCanBeMissing(TOKENLESS);
    assert TOKENLESS.actions[0].update.expectedUpdatedAt == ZERO_TIME;
    var rec := FreshRecord(TOKENLESS, 1);
    assert Normalized(rec, Word(22)) == rec && RecordOk(rec);
    assert Perform(World(s, map[]), Import(rec, Word(22))) == World(s, map[ID := rec]);
    hide Perform, ProposalOk, ShapeOk;
    assert Upto(World(s, map[ID := rec]), TOKENLESS.actions, QUIET, 0) == World(s, map[ID := rec]);
  }

  // ---------------------------------------------------------------- two successes

  /** One proposal succeeds twice, with an import of its unapplied record in between. */
  lemma SucceedsAgainAfterImport() returns (worlds: seq<World>, log: seq<Entry>)
    ensures History(worlds, log) && |log| == 4
    ensures Succeeds(log[1], ID) && log[2].Did? && log[2].act.Import? && Succeeds(log[3], ID)
  {
    hide Perform, Called, LedgerOk, Ready, SpentThere, StoreModel.Apply, RecordStored;
    var w0 := World(BASE, map[]);
    var w1 := World(BASE, map[ID := RECORD]);
    SuggestionGivesReady(BASE);
    var r1, e1, w2 := QuietCallSucceeds(w1);
    var a := AnyRecordCanBeReopened(w2, ID, Word(22));
    var w3 := Perform(w2, a);
    StillReady(w2, a);
    var r2, e2, w4 := QuietCallSucceeds(w3);
    worlds := [w0, w1, w2, w3, w4];
    log := [Did(SUGGESTION), Tried(Confirm(QUIET), r1, e1), Did(a), Tried(Confirm(QUIET), r2, e2)];
    FourSteps(worlds, log);
  }

  lemma StillReady(w: World, a: Act)
    requires LedgerOk(w.records) && SpentThere(w, ID) && P in w.state.projects.rows
    requires w.records[ID].proposal == PROPOSAL && w.records[ID].projectId == P
    requires var w' := Perform(w, a);
      && w'.state == w.state && ID in w'.records && !Spent(w'.records[ID])
         && w'.records[ID].proposal == w.records[ID].proposal
    ensures LedgerOk(Perform(w, a).records) && Ready(Perform(w, a))
  {
    hide Perform, Spent;
    PerformedOne(w, a);
    LedgerStaysOk(w, [a]);
  }

  lemma FourSteps(worlds: seq<World>, log: seq<Entry>)
    requires |worlds| == 5 && |log| == 4 && LedgerOk(worlds[0].records)
    requires Happens(worlds[0], log[0], worlds[1]) && Happens(worlds[1], log[1], worlds[2])
    requires Happens(worlds[2], log[2], worlds[3]) && Happens(worlds[3], log[3], worlds[4])
    ensures History(worlds, log)
  {
    hide Happens, LedgerOk;
  }

  /** And twice, with the project deleted and built up again in between. */
  lemma SucceedsAgainAfterDeletion() returns (worlds: seq<World>, log: seq<Entry>)
    ensures History(worlds, log) && |log| == 6
    ensures Succeeds(log[1], ID) && log[2] == Did(DELETION) && Succeeds(log[5], ID)
  {
    hide Perform, Called, LedgerOk, Ready, SpentThere, StoreModel.Apply, RecordStored;
    var w0 := World(BASE, map[]);
    var w1 := World(BASE, map[ID := RECORD]);
    SuggestionGivesReady(BASE);
    var r1, e1, w2 := QuietCallSucceeds(w1);
    QuietRecords(w1, r1, e1, w2);
    var w3, w4 := Perform(w2, DELETION), Perform(Perform(w2, DELETION), CREATION);
    RebuildGivesRoom(w2);
    SuggestionGivesReady(w4.state);
    var w5 := World(w4.state, map[ID := RECORD]);
    var r2, e2, w6 := QuietCallSucceeds(w5);
    worlds := [w0, w1, w2, w3, w4, w5, w6];
    log := [Did(SUGGESTION), Tried(Confirm(QUIET), r1, e1), Did(DELETION), Did(CREATION), Did(SUGGESTION),
            Tried(Confirm(QUIET), r2, e2)];
    SixSteps(worlds, log);
  }

  lemma QuietRecords(w: World, r: ApplyResult, e: Option<Error>, w': World)
    requires w.records.Keys == {ID} && LedgerOk(w.records) && Ready(w) && Called(w, Confirm(QUIET), r, e, w') && e.None?
    ensures w'.records.Keys == {ID}
  {
    ActionAccepted(w);
    Traces(QUIET);
    PerformedOne(w, OnStore(Event(TOUCH, 1)));
    hide Perform, StoreModel.Apply, ProposalOk, ShapeOk;
    assert [OnStore(Event(TOUCH, 1))] + [] == [OnStore(Event(TOUCH, 1))];
    forall key
      ensures key in w'.records <==> key == ID
    {
      CallOnRecord(w, Confirm(QUIET), r, e, w', key);
      CallSucceedsExactlyWhen(w, Confirm(QUIET), r, e, w');
    }
  }

  lemma RebuildGivesRoom(w: World)
    requires w.records.Keys == {ID} && w.records[ID].projectId == P && P in w.state.projects.rows
    ensures var w' := Perform(Perform(w, DELETION), CREATION);
      w'.records == map[] && P in w'.state.projects.rows
  {
    assert Perform(w, DELETION).records == map[];
  }

  lemma SixSteps(worlds: seq<World>, log: seq<Entry>)
    requires |worlds| == 7 && |log| == 6 && LedgerOk(worlds[0].records)
    requires Happens(worlds[0], log[0], worlds[1]) && Happens(worlds[1], log[1], worlds[2])
    requires Happens(worlds[2], log[2], worlds[3]) && Happens(worlds[3], log[3], worlds[4])
    requires Happens(worlds[4], log[4], worlds[5]) && Happens(worlds[5], log[5], worlds[6])
    ensures History(worlds, log)
  {
    hide Happens, LedgerOk;
  }
}
