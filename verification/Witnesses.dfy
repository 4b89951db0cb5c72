/** Concrete runs for the properties that do not hold without a condition. */
module Witnesses {
  import opened Domain
  import opened AssignmentRules
  import opened HandoffRules
  import opened StoreModel
  import opened HandoffDialect
  import opened Runs
  import opened FollowUps
  import opened HandoffRuns
  import opened AssignmentProofs
  import SqliteStore
  import OperationsOrder
  import Projections

  /** The store after more events. */
  function Then(s: State, events: seq<Event>): State
    decreases |events|
  {
    if events == [] then s else Then(Apply(s, events[0]).state, events[1..])
  }

  lemma {:induction false} AtPrefix(run: seq<Event>, more: seq<Event>, i: nat)
    requires i <= |run|
    ensures At(run + more, i) == At(run, i)
  {
    hide StoreModel.Apply;
    if i > 0 {
      AtPrefix(run, more, i - 1);
    }
  }

  lemma {:induction false} AtThen(run: seq<Event>, more: seq<Event>)
    ensures At(run + more, |run| + |more|) == Then(At(run, |run|), more)
    decreases |more|
  {
    hide StoreModel.Apply;
    if more == [] {
      assert run + more == run;
    } else {
      assert run + more == (run + more[..1]) + more[1..];
      AtThen(run + more[..1], more[1..]);
      AtPrefix(run, more[..1], |run|);
      assert (run + more[..1])[|run|] == more[0];
    }
  }

  // ---------------------------------------------------------------- a small project

  const P := Word(0)
  const R := Word(1)
  const W1 := Word(2)
  const W2 := Word(3)
  const A := Word(4)
  const H := Word(5)
  const FENCE := Word(6)
  const WORKER := Word(7)
  const COMMAND_KEY := Word(8)

  const PROJECT := Project(P, [], Blank)
  const ROLE := Role(R, P, [], Blank, Blank)
  const ITEM1 := WorkItem(W1, P, Blank, Blank, Blank, Blank, 0)
  const ITEM2 := WorkItem(W2, P, Blank, Blank, Blank, Blank, 0)

  const SETUP: seq<Event> := [
    Event(OpCreateProject(PROJECT), 0), Event(OpCreateRole(ROLE), 0),
    Event(OpCreateWorkItem(ITEM1), 0), Event(OpCreateWorkItem(ITEM2), 0)]

  const BASE := EMPTY.(
    projects := Table(map[P := PROJECT]),
    roles := Table(map[Key(P, R) := ROLE]),
    workItems := Table(map[Key(P, W1) := ITEM1, Key(P, W2) := ITEM2]))

  lemma SetupGivesBase()
    ensures Then(EMPTY, SETUP) == BASE
  {
    var s1 := EMPTY.(projects := Table(map[P := PROJECT]));
    var s2 := s1.(roles := Table(map[Key(P, R) := ROLE]));
    var s3 := s2.(workItems := Table(map[Key(P, W1) := ITEM1]));
    assert Apply(EMPTY, SETUP[0]).state == s1;
    assert Apply(s1, SETUP[1]).state == s2;
    assert Apply(s2, SETUP[2]).state == s3;
    assert Apply(s3, SETUP[3]).state == BASE;
    ThenFour(EMPTY, SETUP[0], SETUP[1], SETUP[2], SETUP[3]);
    assert SETUP == [SETUP[0], SETUP[1], SETUP[2], SETUP[3]];
  }

  lemma ThenOne(s: State, e: Event)
    ensures Then(s, [e]) == Apply(s, e).state
  {
    hide StoreModel.Apply;
    assert [e][1..] == [];
  }

  lemma ThenTwo(s: State, e1: Event, e2: Event)
    ensures Then(s, [e1, e2]) == Apply(Apply(s, e1).state, e2).state
  {
    hide StoreModel.Apply;
    ThenOne(Apply(s, e1).state, e2);
    assert [e1, e2][1..] == [e2];
  }

  lemma ThenThree(s: State, e1: Event, e2: Event, e3: Event)
    ensures Then(s, [e1, e2, e3]) == Apply(Apply(Apply(s, e1).state, e2).state, e3).state
  {
    hide StoreModel.Apply;
    ThenTwo(Apply(s, e1).state, e2, e3);
    assert [e1, e2, e3][1..] == [e2, e3];
  }

  lemma ThenFour(s: State, e1: Event, e2: Event, e3: Event, e4: Event)
    ensures Then(s, [e1, e2, e3, e4]) == Apply(Apply(Apply(Apply(s, e1).state, e2).state, e3).state, e4).state
  {
    hide StoreModel.Apply;
    ThenThree(Apply(s, e1).state, e2, e3, e4);
    assert [e1, e2, e3, e4][1..] == [e2, e3, e4];
  }

  /** A run that starts with the set-up ends where its other events lead from the base. */
  lemma FromBase(events: seq<Event>)
    ensures At(SETUP + events, 4 + |events|) == Then(BASE, events)
  {
    hide StoreModel.Apply;
    AtThen([], SETUP);
    assert [] + SETUP == SETUP;
    SetupGivesBase();
    AtThen(SETUP, events);
  }

  // ---------------------------------------------------------------- assignments before the zero time

  const NO_AGENT := DesiredAgent(Blank, [])

  /** A queued assignment at -30 with a start time. */
  function Early(startedAt: Time): Assignment {
    Assignment(A, P, W1, R, Blank, MANUAL, Queued, NO_AGENT, Blank, None, EMPTY_REF, Blank, -30, -20, startedAt,
               ZERO_TIME)
  }

  function EarlyClaimed(startedAt: Time, ttl: int): Assignment {
    Early(startedAt).(status := Claimed, claimedBy := WORKER, claim := Some(ClaimLease(FENCE, -10, -10 + ttl)),
                      updatedAt := if startedAt == ZERO_TIME then ZERO_TIME else -5)
  }

  /** Created at -30 and claimed at -10. */
  function ClaimEarly(startedAt: Time, ttl: int): seq<Event> {
    [Event(OpCreateAssignment(Early(startedAt)), -30), Event(OpTransit(P, A, ClaimWithLease(WORKER, FENCE, ttl)), -10)]
  }

  lemma EarlyIsClaimed(startedAt: Time, ttl: int)
    requires startedAt == ZERO_TIME || startedAt == -5
    requires 0 < ttl < 10
    ensures Then(BASE, ClaimEarly(startedAt, ttl)) ==
      BASE.(assignments := Table(map[Key(P, A) := EarlyClaimed(startedAt, ttl)]))
  {
    var k := Key(P, A);
    var s1 := BASE.(assignments := Table(map[k := Early(startedAt)]));
    var s2 := BASE.(assignments := Table(map[k := EarlyClaimed(startedAt, ttl)]));
    var events := ClaimEarly(startedAt, ttl);
    assert Apply(BASE, events[0]).state == s1;
    assert Next(Memory, events[1].op.transition, Early(startedAt), -10) == Ok(EarlyClaimed(startedAt, ttl));
    assert Apply(s1, events[1]).state == s2;
    ThenTwo(BASE, events[0], events[1]);
    assert events == [events[0], events[1]];
  }

  /** A run after which the stores release the same claim to different revisions. */
  lemma RequeueStampsCanDiffer()
    ensures exists run: seq<Event>, now: Time ::
      Transit(Sqlite, At(run, |run|), P, A, ReleaseWithClaim(FENCE), now)
        != Transit(Memory, At(run, |run|), P, A, ReleaseWithClaim(FENCE), now)
  {
    var run := SETUP + ClaimEarly(-5, 3);
    FromBase(ClaimEarly(-5, 3));
    EarlyIsClaimed(-5, 3);
    var a := EarlyClaimed(-5, 3);
    assert Next(Memory, ReleaseWithClaim(FENCE), a, -8).value.updatedAt == 0;
    assert Next(Sqlite, ReleaseWithClaim(FENCE), a, -8).value.updatedAt == -4;
    var s := At(run, |run|);
    assert s.assignments.rows[Key(P, A)] == a;
    assert Transit(Memory, s, P, A, ReleaseWithClaim(FENCE), -8).reply
        != Transit(Sqlite, s, P, A, ReleaseWithClaim(FENCE), -8).reply;
  }

  const RENEWAL := Event(OpTransit(P, A, Renew(FENCE, 6)), -6)

  lemma RenewalErases()
    ensures var s := Apply(BASE.(assignments := Table(map[Key(P, A) := EarlyClaimed(ZERO_TIME, 5)])), RENEWAL).state;
      Key(P, A) in s.assignments.rows && !ClaimStateOk(s.assignments.rows[Key(P, A)])
  {
    var a := EarlyClaimed(ZERO_TIME, 5);
    assert Next(Memory, Renew(FENCE, 6), a, -6) == Ok(a.(claim := Some(a.claim.value.(expiresAt := ZERO_TIME))));
  }

  /** A run whose last event, a renewal, leaves a malformed claim. */
  lemma RenewalErasesInARun()
    ensures exists run: seq<Event> ::
      Key(P, A) in At(run, |run|).assignments.rows && !ClaimStateOk(Item(run, Key(P, A), |run|))
  {
    var claim := ClaimEarly(ZERO_TIME, 5);
    EarlyIsClaimed(ZERO_TIME, 5);
    RenewalErases();
    hide StoreModel.Apply, StoreModel.At, EarlyClaimed, Early, AssignmentRules.ClaimStateOk;
    FromBase(claim + [RENEWAL]);
    ThenThree(BASE, claim[0], claim[1], RENEWAL);
    ThenTwo(BASE, claim[0], claim[1]);
    assert claim == [claim[0], claim[1]] && claim + [RENEWAL] == [claim[0], claim[1], RENEWAL];
    var run := SETUP + (claim + [RENEWAL]);
    assert |run| == 4 + 3;
  }

  /** A queued update to a blank role: refused in memory, done in SQLite. */
  lemma BlankRoleIsWavedThrough()
    ensures exists run: seq<Event>, t: Transition, now: Time ::
      && Transit(Memory, At(run, |run|), P, A, t, now).reply == Refused(NotFound)
      && Transit(Sqlite, At(run, |run|), P, A, t, now).reply.Assigned?
  {
    var queued := Early(ZERO_TIME);
    var create := Event(OpCreateAssignment(queued), -30);
    FromBase([create]);
    ThenOne(BASE, create);
    var run := SETUP + [create];
    var s := At(run, |run|);
    assert s.assignments.rows == map[Key(P, A) := queued];
    var c := Coordination(W1, R, Blank, MANUAL, NO_AGENT);
    var t := UpdateQueued(QueuedUpdate(c, -20, c.(roleId := Blank)));
    assert Transit(Memory, s, P, A, t, 1).reply == Refused(NotFound);
    assert Transit(Sqlite, s, P, A, t, 1).reply.Assigned?;
  }

  /** A role deleted between the reads and the transaction of a queued update: the plain step
      on the later store refuses, SQLite moves the assignment to the missing role. */
  lemma RoleCanVanish()
    ensures exists run: seq<Event>, u: QueuedUpdate ::
      && run != [] && run[|run| - 1] == Event(OpDeleteRole(P, R), 1)
      && var early, late := At(run, |run| - 1), At(run, |run|);
         && Transit(Sqlite, late, P, A, UpdateQueued(u), 2).reply == Refused(NotFound)
         && SqliteStore.QueuedOnRows(early, late, P, A, u, 2).reply.Assigned?
  {
    var early := BASE.(assignments := Table(map[Key(P, A) := Early(ZERO_TIME)]));
    var create, deletion := Event(OpCreateAssignment(Early(ZERO_TIME)), -30), Event(OpDeleteRole(P, R), 1);
    var c := Coordination(W1, R, Blank, MANUAL, NO_AGENT);
    var u := QueuedUpdate(c, -20, c);
    EarlyIsCreated();
    RoleVanishes(early, u);
    hide StoreModel.Apply, StoreModel.At, StoreModel.Transit, SqliteStore.QueuedOnRows;
    FromBase([create]);
    ThenOne(BASE, create);
    FromBase([create, deletion]);
    ThenTwo(BASE, create, deletion);
    var run := SETUP + [create, deletion];
    AtPrefix(SETUP + [create], [deletion], 5);
    assert run == (SETUP + [create]) + [deletion];
    assert At(run, 6) == Apply(early, deletion).state;
  }

  lemma EarlyIsCreated()
    ensures Apply(BASE, Event(OpCreateAssignment(Early(ZERO_TIME)), -30)).state
         == BASE.(assignments := Table(map[Key(P, A) := Early(ZERO_TIME)]))
  {
  }

  lemma RoleVanishes(early: State, u: QueuedUpdate)
    requires early == BASE.(assignments := Table(map[Key(P, A) := Early(ZERO_TIME)]))
    requires u == QueuedUpdate(Coordination(W1, R, Blank, MANUAL, NO_AGENT), -20,
                               Coordination(W1, R, Blank, MANUAL, NO_AGENT))
    ensures var late := Apply(early, Event(OpDeleteRole(P, R), 1)).state;
      && Transit(Sqlite, late, P, A, UpdateQueued(u), 2).reply == Refused(NotFound)
      && SqliteStore.QueuedOnRows(early, late, P, A, u, 2).reply.Assigned?
  {
  }

  /** An expired claim stored with a padded status: active in one view, blocked in the
      other. */
  lemma PaddedClaimDiffers()
    ensures var a := EarlyClaimed(ZERO_TIME, 5).(status := Padded(Claimed));
      && Projections.ActivityBucket(a, 1) == Projections.InActive
      && Projections.AssignmentSeverity(a, 1) == Some(OperationsOrder.SeverityBlocked)
  {
  }

  const KA := Key(P, A)

  const CREATE_EARLY := Event(OpCreateAssignment(Early(ZERO_TIME)), -30)
  const EARLY_BASE := BASE.(assignments := Table(map[KA := Early(ZERO_TIME)]))

  /** The same assignment but for its creation time. */
  const LOOKALIKE := Early(ZERO_TIME).(createdAt := -25)

  const RECREATION: seq<Event> := [
    CREATE_EARLY, Event(OpDeleteAssignment(P, A), 1), Event(OpCreateAssignment(LOOKALIKE), 2)]

  /** An update that presents everything the caller read of the first one. */
  const STALE_UPDATE := QueuedUpdate(
    Coordination(W1, R, Blank, MANUAL, NO_AGENT), -20, Coordination(W2, R, Blank, MANUAL, NO_AGENT))

  lemma RecreationSteps()
    ensures Apply(BASE, CREATE_EARLY).state == EARLY_BASE
    ensures Apply(EARLY_BASE, RECREATION[1]).state == BASE
    ensures Apply(BASE, RECREATION[2]).state == BASE.(assignments := Table(map[KA := LOOKALIKE]))
  {
    var s := Apply(EARLY_BASE, RECREATION[1]).state;
    assert s.assignments.rows == map[];
    assert s.artifacts.rows == map[] && s.reviews.rows == map[];
  }

  lemma StaleUpdateSucceeds(s: State)
    requires s == BASE.(assignments := Table(map[KA := LOOKALIKE]))
    ensures Apply(s, Event(OpTransit(P, A, UpdateQueued(STALE_UPDATE)), 3)).reply.Assigned?
  {
  }

  /** A run that creates, deletes and creates an assignment anew, and in which a queued
      update with the revision and content that were read first then succeeds on the
      other. */
  lemma UpdateCanMissARecreation()
    ensures exists run: seq<Event>, i: nat, j: nat ::
      && i < j < |run| && KA in At(run, i).assignments.rows && Reassigns(run, j, KA, Item(run, KA, i).updatedAt)
      && KA in At(run, j).assignments.rows && Item(run, KA, j) != Item(run, KA, i)
  {
    var update := Event(OpTransit(P, A, UpdateQueued(STALE_UPDATE)), 3);
    var run := (SETUP + RECREATION) + [update];
    RecreationSteps();
    hide StoreModel.Apply, StoreModel.At;
    FromBase([CREATE_EARLY]);
    ThenOne(BASE, CREATE_EARLY);
    FromBase(RECREATION);
    ThenThree(BASE, RECREATION[0], RECREATION[1], RECREATION[2]);
    assert RECREATION == [RECREATION[0], RECREATION[1], RECREATION[2]];
    AtPrefix(SETUP + [CREATE_EARLY], RECREATION[1..] + [update], 5);
    assert run == (SETUP + [CREATE_EARLY]) + (RECREATION[1..] + [update]);
    AtPrefix(SETUP + RECREATION, [update], 7);
    StaleUpdateSucceeds(At(run, 7));
    assert Item(run, KA, 5) == Early(ZERO_TIME) && Item(run, KA, 7) == LOOKALIKE;
    assert Reassigns(run, 7, KA, Item(run, KA, 5).updatedAt);
  }

  const EARLY_COMPLETION := Event(OpTransit(P, A, HostComplete(Completed, EMPTY_REF)), -1)

  const UNSTAMPED := Early(ZERO_TIME).(status := Completed, updatedAt := ZERO_TIME)

  lemma CompletionStep()
    ensures Apply(EARLY_BASE, EARLY_COMPLETION).state == BASE.(assignments := Table(map[KA := UNSTAMPED]))
    ensures !LifecycleOk(UNSTAMPED)
  {
    assert Next(Memory, HostComplete(Completed, EMPTY_REF), Early(ZERO_TIME), -1) == Ok(UNSTAMPED);
  }

  /** Queued work with a revision before the zero time, completed by a host at -1: finished
      without a start or a completion time. */
  lemma CompletionCanStampUnset()
    ensures exists run: seq<Event> ::
      KA in At(run, |run|).assignments.rows && Item(run, KA, |run|) == UNSTAMPED && !LifecycleOk(UNSTAMPED)
  {
    RecreationSteps();
    CompletionStep();
    hide StoreModel.Apply, StoreModel.At, AssignmentProofs.LifecycleOk;
    FromBase([CREATE_EARLY, EARLY_COMPLETION]);
    ThenTwo(BASE, CREATE_EARLY, EARLY_COMPLETION);
    var run := SETUP + [CREATE_EARLY, EARLY_COMPLETION];
    assert |run| == 6;
    assert Item(run, KA, |run|) == UNSTAMPED;
  }

  // ---------------------------------------------------------------- handoffs

  function OpenHandoff(createdAt: Time, statusChangedAt: Time): Handoff {
    Handoff(H, P, W1, Blank, Blank, Blank, Blank, Blank, R, Blank, Blank, Blank, Blank, Blank, [], [], [],
            Open, Blank, Blank, createdAt, createdAt, statusChangedAt)
  }

  const NO_CHANGE := HandoffPatch(None, None, None, None, None, None, None, None, None, None, None, None, None, None,
                                  None, None, None)

  const DISMISSAL := NO_CHANGE.(status := Some(Dismissed))

  lemma HandoffIsCreated(h: Handoff)
    requires h.projectId == P && h.id == H && h.workItemId == W1 && FreshHandoff(h, 0) == h && HandoffRefsOk(BASE, h)
    ensures var run := SETUP + [Event(OpCreateHandoff(h), 0)];
      At(run, |run|) == BASE.(handoffs := Table(map[Key(P, H) := h]))
  {
    var create := Event(OpCreateHandoff(h), 0);
    FromBase([create]);
    ThenOne(BASE, create);
    assert Apply(BASE, create).state == BASE.(handoffs := Table(map[Key(P, H) := h]));
  }

  /** A dismissal that moves the status of a reachable handoff and not its status stamp,
      which was ahead of the revision. */
  lemma StatusStampCanStay()
    ensures exists run: seq<Event>, h: Handoff, g: Handoff ::
      && Key(P, H) in At(run, |run|).handoffs.rows && At(run, |run|).handoffs.rows[Key(P, H)] == h
      && PatchHandoff(At(run, |run|), P, W1, H, HandoffUpdate(1, DISMISSAL), 2).reply == Handed(g)
      && g.status != h.status && g.statusChangedAt == h.statusChangedAt
  {
    var h := OpenHandoff(1, 50);
    HandoffIsCreated(h);
    var run := SETUP + [Event(OpCreateHandoff(h), 0)];
    var g := Revised(h, DISMISSAL, 2);
    assert HandoffStamp(h, 2) == 50;
    assert PatchHandoff(At(run, |run|), P, W1, H, HandoffUpdate(1, DISMISSAL), 2).reply == Handed(g);
  }

  /** The stores answer the same dismissal at the zero time with different status times. */
  predicate StampHiddenAt(s: State, g: Handoff) {
    && g.statusChangedAt == ZERO_TIME && g.createdAt == -5
    && PatchHandoff(s, P, W1, H, HandoffUpdate(-5, DISMISSAL), 0).reply == Handed(g)
    && PatchOnRows(s, P, W1, H, HandoffUpdate(-5, DISMISSAL), 0).reply == Handed(g.(statusChangedAt := -5))
  }

  lemma HiddenPatch()
    ensures var h := OpenHandoff(-5, -5);
      StampHiddenAt(BASE.(handoffs := Table(map[Key(P, H) := h])), Revised(h, DISMISSAL, 0))
  {
  }

  /** A dismissal whose stamp falls on the zero time: the in-memory store leaves the status
      time unset, SQLite answers with the creation time. */
  lemma HiddenStampReadsAsCreation()
    ensures exists run: seq<Event>, g: Handoff :: StampHiddenAt(At(run, |run|), g)
  {
    var h := OpenHandoff(-5, -5);
    HandoffIsCreated(h);
    HiddenPatch();
    hide StoreModel.At, StampHiddenAt;
    var run := SETUP + [Event(OpCreateHandoff(h), 0)];
    assert StampHiddenAt(At(run, |run|), Revised(h, DISMISSAL, 0));
  }

  /** And the next patch, of the title alone, moves the unset stamp without the status. */
  lemma UnsetStampMovesAlone()
    ensures var h := Revised(OpenHandoff(-5, -5), DISMISSAL, 0); var g := Revised(h, NO_CHANGE.(title := Some(R)), 10);
      g.status == h.status && g.statusChangedAt != h.statusChangedAt
  {
  }

  const KH := Key(P, H)

  /** Create, delete, create again as before, and delete again. */
  const TOKEN_TWICE: seq<Event> := [
    CREATE_HANDOFF, Event(OpDeleteHandoff(P, W1, H, 1), 2), CREATE_HANDOFF, Event(OpDeleteHandoff(P, W1, H, 1), 3)]

  lemma TokenSteps()
    ensures Apply(BASE, CREATE_HANDOFF).state == HANDOFF_BASE
    ensures Apply(HANDOFF_BASE, TOKEN_TWICE[1]).state == BASE && Apply(HANDOFF_BASE, TOKEN_TWICE[3]).state == BASE
  {
    assert HANDOFF_BASE.handoffs.rows - {KH} == map[];
  }

  /** A run in which two deletions take the same token of the same handoff id. */
  lemma TokenCanBeTakenTwice()
    ensures exists run: seq<Event>, i: nat, j: nat :: i < j < |run| && Consumes(run, i, KH, 1)
              && Consumes(run, j, KH, 1)
  {
    TokenSteps();
    hide StoreModel.Apply, StoreModel.At;
    var run := SETUP + TOKEN_TWICE;
    assert At(run, 5) == HANDOFF_BASE && At(run, 6) == BASE && At(run, 7) == HANDOFF_BASE && At(run, 8) == BASE by {
      TokenStates(1); TokenStates(2); TokenStates(3); TokenStates(4);
    }
    assert run[5] == TOKEN_TWICE[1] && run[7] == TOKEN_TWICE[3];
    assert Consumes(run, 5, KH, 1) && Consumes(run, 7, KH, 1);
  }

  lemma TokenStates(n: nat)
    requires n <= 4
    ensures At(SETUP + TOKEN_TWICE, 4 + n) == if n % 2 == 0 then BASE else HANDOFF_BASE
  {
    TokenSteps();
    hide StoreModel.Apply, StoreModel.At;
    if n == 0 {
      AtPrefix(SETUP, TOKEN_TWICE, 4);
      FromBase([]);
      assert SETUP + [] == SETUP;
    } else {
      TokenStates(n - 1);
      AtNext(SETUP + TOKEN_TWICE, 3 + n);
      assert (SETUP + TOKEN_TWICE)[3 + n] == TOKEN_TWICE[n - 1];
    }
  }

  // ---------------------------------------------------------------- follow-ups

  function Accept(newId: Id): Event {
    Event(OpAcceptHandoff(AcceptCommand(P, W1, H, 1, COMMAND_KEY, Blank), newId, 5), 6)
  }

  const ACCEPT_REQUEST := AcceptCommand(P, W1, H, 1, COMMAND_KEY, Blank)

  function FollowUpOf(newId: Id): Assignment {
    Assignment(newId, P, W1, R, Blank, MCP_PULL, Queued, DesiredAgent(ANY_AGENT, []), Blank, None, EMPTY_REF, Blank,
               5, 5, ZERO_TIME, ZERO_TIME)
  }

  function AcceptedHandoff(newId: Id): Handoff {
    OpenHandoff(1, 1).(targetAssignmentId := newId, targetWorkItemId := W1, status := Accepted,
                       updatedAt := 6, statusChangedAt := 6)
  }

  function FirstReceipt(newId: Id): Receipt {
    Receipt(Request(ACCEPT_REQUEST), FollowUpResult(AcceptedHandoff(newId), FollowUpOf(newId), CreatedFollowUp, false))
  }

  /** The store after the handoff was created and accepted. */
  function AcceptedBase(newId: Id): State {
    BASE.(assignments := Table(map[Key(P, newId) := FollowUpOf(newId)]),
          handoffs := Table(map[Key(P, H) := AcceptedHandoff(newId)]),
          receipts := Table(map[Key(P, COMMAND_KEY) := FirstReceipt(newId)]))
  }

  const CREATE_HANDOFF := Event(OpCreateHandoff(OpenHandoff(1, 1)), 0)

  const HANDOFF_BASE := BASE.(handoffs := Table(map[Key(P, H) := OpenHandoff(1, 1)]))

  lemma CreateFromBase()
    ensures Apply(BASE, CREATE_HANDOFF).state == HANDOFF_BASE
  {
  }

  lemma AcceptFromBase(newId: Id)
    ensures Apply(HANDOFF_BASE, Accept(newId)) ==
      Outcome(AcceptedBase(newId), FollowedUp(FirstReceipt(newId).result))
    ensures Executes(HANDOFF_BASE, Accept(newId))
  {
    var h := OpenHandoff(1, 1);
    var target := h.(targetAssignmentId := newId, targetWorkItemId := W1);
    assert AcceptedAs(target, 6) == AcceptedHandoff(newId);
    var o := AcceptHandoff(HANDOFF_BASE, ACCEPT_REQUEST, newId, 5, 6);
    assert FollowUpAssignment(ACCEPT_REQUEST, newId, ITEM1, W1, ROLE, R, 5) == FollowUpOf(newId);
    assert o.state.handoffs.rows == map[Key(P, H) := AcceptedHandoff(newId)];
    assert o.state == AcceptedBase(newId);
  }

  const DROP_PROJECT := Event(OpDeleteProject(P), 7)

  /** Deleting the only project empties the store. */
  lemma DropEmpties(newId: Id)
    ensures Apply(AcceptedBase(newId), DROP_PROJECT).state == EMPTY
  {
    var s := Apply(AcceptedBase(newId), DROP_PROJECT).state;
    assert s.projects.rows == map[] && s.roles.rows == map[] && s.workItems.rows == map[];
    assert s.assignments.rows == map[] && s.handoffs.rows == map[] && s.receipts.rows == map[];
    assert s.skills.rows == map[] && s.entries.rows == map[] && s.candidates.rows == map[];
    assert s.artifacts.rows == map[] && s.evidence.rows == map[] && s.reviews.rows == map[];
  }

  /** One project, one key, two executions and two different assignments: the project was
      deleted in between and built up again. */
  lemma KeyCanBeUsedAgain()
    ensures exists run: seq<Event>, i: nat, j: nat ::
      && i < j < |run| && Executes(At(run, i), run[i]) && Executes(At(run, j), run[j])
      && ReceiptKey(run[i]) == ReceiptKey(run[j])
      && Apply(At(run, i), run[i]).reply.result.assignment.id != Apply(At(run, j), run[j]).reply.result.assignment.id
  {
    hide StoreModel.Apply, Executes;
    var first := SETUP + [CREATE_HANDOFF];
    var cycle := first + [Accept(A), DROP_PROJECT];
    var run := cycle + first + [Accept(W2)];
    FirstCycle();
    AtPrefix(first, run[5..], 5);
    AtPrefix(cycle + first, [Accept(W2)], 12);
    assert run == first + run[5..] && run == (cycle + first) + [Accept(W2)];
    assert run[5] == Accept(A) && run[12] == Accept(W2);
    CreateFromBase();
    AcceptFromBase(A);
    AcceptFromBase(W2);
  }

  lemma FirstCycle()
    ensures var first := SETUP + [CREATE_HANDOFF]; var cycle := first + [Accept(A), DROP_PROJECT];
      At(first, 5) == HANDOFF_BASE && At(cycle + first, 12) == HANDOFF_BASE
  {
    hide StoreModel.Apply, Executes;
    var first := SETUP + [CREATE_HANDOFF];
    var cycle := first + [Accept(A), DROP_PROJECT];
    FromBase([CREATE_HANDOFF]);
    ThenOne(BASE, CREATE_HANDOFF);
    CreateFromBase();
    AcceptFromBase(A);
    AtThen(first, [Accept(A), DROP_PROJECT]);
    ThenTwo(HANDOFF_BASE, Accept(A), DROP_PROJECT);
    DropEmpties(A);
    AtThen(cycle, first);
    AtThen([], first);
    assert [] + first == first;
  }

  /** The handoff, deleted and created anew under another work item as accepted with the
      same assignment. */
  function Refiled(newId: Id): Handoff {
    AcceptedHandoff(newId).(workItemId := W2, createdAt := 8, updatedAt := 8, statusChangedAt := 8)
  }

  const REFILED_BASE := AcceptedBase(A).(handoffs := Table(map[Key(P, H) := Refiled(A)]))

  const REFILING: seq<Event> := [
    CREATE_HANDOFF, Accept(A), Event(OpDeleteHandoff(P, W1, H, 6), 7), Event(OpCreateHandoff(Refiled(A)), 8)]

  lemma RefilingSteps()
    ensures var s1 := AcceptedBase(A).(handoffs := Table(map[]));
      Apply(AcceptedBase(A), REFILING[2]).state == s1 && Apply(s1, REFILING[3]).state == REFILED_BASE
  {
    assert AcceptedBase(A).handoffs.rows - {Key(P, H)} == map[];
  }

  lemma RefilingReached()
    ensures At(SETUP + REFILING, 8) == REFILED_BASE
  {
    CreateFromBase();
    AcceptFromBase(A);
    RefilingSteps();
    hide StoreModel.Apply, StoreModel.At, AcceptedBase, Refiled;
    FromBase(REFILING);
    ThenFour(BASE, REFILING[0], REFILING[1], REFILING[2], REFILING[3]);
    assert REFILING == [REFILING[0], REFILING[1], REFILING[2], REFILING[3]];
  }

  /** A run after which the in-memory store answers a repeated acceptance and SQLite
      reports a conflict. */
  lemma ReplayCanBeMissed()
    ensures exists run: seq<Event> ::
      && AcceptHandoff(At(run, |run|), ACCEPT_REQUEST, W2, 9, 9).reply.FollowedUp?
      && AcceptOnRows(At(run, |run|), ACCEPT_REQUEST, W2, 9, 9).reply == Refused(Conflict)
  {
    RefilingReached();
    RefiledReplay();
    hide StoreModel.At, StoreModel.AcceptHandoff, AcceptOnRows;
    var run := SETUP + REFILING;
    assert |run| == 8;
  }

  lemma RefiledReplay()
    ensures AcceptHandoff(REFILED_BASE, ACCEPT_REQUEST, W2, 9, 9).reply.FollowedUp?
    ensures AcceptOnRows(REFILED_BASE, ACCEPT_REQUEST, W2, 9, 9).reply == Refused(Conflict)
  {
  }
}
