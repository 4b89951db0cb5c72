/** Compare-and-set on handoffs over whole runs: no update is lost. */
module HandoffRuns {
  import opened Domain
  import opened HandoffRules
  import opened StoreModel

  predicate PatchesTo(e: Event, k: Key, h: Handoff, g: Handoff) {
    && e.op.OpPatchHandoff? && k == Key(e.op.projectId, e.op.id)
    && h.updatedAt == e.op.update.expectedUpdatedAt
    && !SameContent(h, Patched(h, e.op.update.patch))
    && g == Revised(h, e.op.update.patch, e.now)
  }

  predicate AcceptsTo(e: Event, k: Key, h: Handoff, g: Handoff) {
    && e.op.OpAcceptHandoff? && k == Key(e.op.command.projectId, e.op.command.handoffId)
    && h.updatedAt == e.op.command.expectedUpdatedAt
    && g == AcceptedAs(h.(targetAssignmentId := g.targetAssignmentId, targetWorkItemId := g.targetWorkItemId), e.now)
  }

  predicate CreatesHandoff(e: Event, k: Key, h: Handoff) {
    e.op.OpCreateHandoff? && h == FreshHandoff(e.op.handoff, e.now) && k == Key(h.projectId, h.id)
  }

  /** Whatever the event, a handoff is left alone, created, removed, or replaced by a patch
      or an acceptance that presented its exact revision. */
  lemma HandoffEvolves(s: State, e: Event, k: Key)
    ensures var s' := Apply(s, e).state;
      k in s'.handoffs.rows ==>
        if k in s.handoffs.rows then
          var h, g := s.handoffs.rows[k], s'.handoffs.rows[k];
          g == h || PatchesTo(e, k, h, g) || AcceptsTo(e, k, h, g)
        else CreatesHandoff(e, k, s'.handoffs.rows[k])
  {
    hide StoreModel.Transit, StoreModel.AcceptHandoff, StoreModel.ApplyPlain, StoreModel.CreateAssignment;
    if e.op.OpAcceptHandoff? {
      AcceptStep(s, e.op.command, e.op.newAssignmentId, e.op.created, e.now, k);
    } else if e.op.OpTransit? || e.op.OpPlain? || e.op.OpCreateAssignment? {
      HandoffsUntouched(s, e);
    }
  }

  lemma HandoffsUntouched(s: State, e: Event)
    requires e.op.OpTransit? || e.op.OpPlain? || e.op.OpCreateAssignment?
    ensures Apply(s, e).state.handoffs == s.handoffs
  {
  }

  /** An acceptance changes no handoff but its own, and that only as an acceptance may. */
  predicate AcceptsOnly(s: State, e: Event, k: Key, s': State)
    requires e.op.OpAcceptHandoff?
  {
    && s'.handoffs.rows.Keys == s.handoffs.rows.Keys
    && (k in s.handoffs.rows ==>
          var h, g := s.handoffs.rows[k], s'.handoffs.rows[k];
          g == h || AcceptsTo(e, k, h, g))
  }

  lemma AcceptStep(s: State, c: AcceptCommand, newId: Id, created: Time, now: Time, k: Key)
    ensures AcceptsOnly(s, Event(OpAcceptHandoff(c, newId, created), now), k,
                        AcceptHandoff(s, c, newId, created, now).state)
  {
    hide StoreModel.LinkExisting, StoreModel.CreateFollowUp;
    if HandoffFiled(s, c.projectId, c.workItemId, c.handoffId) {
      var h := s.handoffs.rows[Key(c.projectId, c.handoffId)];
      if h.updatedAt == c.expectedUpdatedAt {
        if h.targetAssignmentId != Blank {
          LinkStep(s, c, newId, created, h, now, k);
        } else if Key(c.projectId, h.toRoleId) in s.roles.rows {
          QueueStep(s, c, newId, h, s.roles.rows[Key(c.projectId, h.toRoleId)], created, now, k);
        }
      }
    }
  }

  lemma LinkStep(s: State, c: AcceptCommand, newId: Id, created: Time, h: Handoff, now: Time, k: Key)
    requires HandoffFiled(s, c.projectId, c.workItemId, c.handoffId) && h.updatedAt == c.expectedUpdatedAt
    requires h == s.handoffs.rows[Key(c.projectId, c.handoffId)] && h.targetAssignmentId != Blank
    ensures AcceptsOnly(s, Event(OpAcceptHandoff(c, newId, created), now), k, LinkExisting(s, c, h, now).state)
  {
  }

  lemma QueueStep(s: State, c: AcceptCommand, newId: Id, h: Handoff, r: Role, created: Time, now: Time, k: Key)
    requires HandoffFiled(s, c.projectId, c.workItemId, c.handoffId) && h.updatedAt == c.expectedUpdatedAt
    requires h == s.handoffs.rows[Key(c.projectId, c.handoffId)]
    ensures AcceptsOnly(s, Event(OpAcceptHandoff(c, newId, created), now), k,
                        CreateFollowUp(s, c, newId, h, r, created, now).state)
  {
  }

  predicate HandoffPresent(run: seq<Event>, k: Key, i: nat, j: nat)
    requires i <= j <= |run|
  {
    forall m: nat :: i <= m <= j ==> k in At(run, m).handoffs.rows
  }

  function HandoffAt(run: seq<Event>, k: Key, i: nat): Handoff
    requires i <= |run| && k in At(run, i).handoffs.rows
  {
    At(run, i).handoffs.rows[k]
  }

  lemma RevisionStep(e: Event, k: Key, h: Handoff, g: Handoff)
    requires g == h || PatchesTo(e, k, h, g) || AcceptsTo(e, k, h, g)
    ensures g == h || g.updatedAt > h.updatedAt
  {
  }

  /** While a handoff is not deleted its revision never falls, and an equal revision means
      an identical handoff. */
  lemma {:induction false} HandoffRevisionsRise(run: seq<Event>, k: Key, i: nat, j: nat)
    requires i <= j <= |run| && HandoffPresent(run, k, i, j)
    ensures HandoffAt(run, k, i) == HandoffAt(run, k, j)
            || HandoffAt(run, k, i).updatedAt < HandoffAt(run, k, j).updatedAt
    decreases j
  {
    if i < j {
      HandoffRevisionsRise(run, k, i, j - 1);
      HandoffEvolves(At(run, j - 1), run[j - 1], k);
      RevisionStep(run[j - 1], k, HandoffAt(run, k, j - 1), HandoffAt(run, k, j));
    }
  }

  /** The event presents the token for the handoff at `k`. */
  predicate PresentsToken(e: Event, k: Key, token: Time) {
    || (e.op.OpPatchHandoff? && k == Key(e.op.projectId, e.op.id) && token == e.op.update.expectedUpdatedAt)
    || (e.op.OpDeleteHandoff? && k == Key(e.op.projectId, e.op.id) && token == e.op.expectedUpdatedAt)
    || (e.op.OpAcceptHandoff? && k == Key(e.op.command.projectId, e.op.command.handoffId)
       && token == e.op.command.expectedUpdatedAt)
  }

  /** The i-th event changes or deletes the handoff at `k` under this token. */
  predicate Consumes(run: seq<Event>, i: nat, k: Key, token: Time)
    requires i < |run|
  {
    && PresentsToken(run[i], k, token)
    && k in At(run, i).handoffs.rows
    && (k in At(run, i + 1).handoffs.rows ==> HandoffAt(run, k, i + 1) != HandoffAt(run, k, i))
  }

  lemma ConsumingMatches(run: seq<Event>, i: nat, k: Key, token: Time)
    requires i < |run| && Consumes(run, i, k, token)
    ensures HandoffAt(run, k, i).updatedAt == token
  {
  }

  lemma ConsumingRaises(run: seq<Event>, i: nat, k: Key, token: Time)
    requires i < |run| && Consumes(run, i, k, token)
    ensures k in At(run, i + 1).handoffs.rows ==> HandoffAt(run, k, i + 1).updatedAt > token
  {
    ConsumingMatches(run, i, k, token);
    HandoffEvolves(At(run, i), run[i], k);
    if k in At(run, i + 1).handoffs.rows {
      RevisionStep(run[i], k, HandoffAt(run, k, i), HandoffAt(run, k, i + 1));
    }
  }

  /** The i-th event creates the handoff at `k`, for the first time or anew. */
  predicate HandoffBorn(run: seq<Event>, i: nat, k: Key)
    requires i < |run|
  {
    k !in At(run, i).handoffs.rows && k in At(run, i + 1).handoffs.rows
  }

  /** No handoff id is used again after a deletion. */
  ghost predicate FreshHandoffs(run: seq<Event>) {
    forall k: Key, i: nat, j: nat :: i < j < |run| && HandoffBorn(run, i, k) ==> !HandoffBorn(run, j, k)
  }

  lemma {:induction false} HandoffOrigin(run: seq<Event>, i: nat, k: Key) returns (n: nat)
    requires i <= |run| && k in At(run, i).handoffs.rows
    ensures n < i && HandoffBorn(run, n, k)
  {
    n := i - 1;
    if k in At(run, n).handoffs.rows {
      n := HandoffOrigin(run, n, k);
    }
  }

  /** The last creation before a sighting. */
  lemma {:induction false} LastHandoffBirth(run: seq<Event>, k: Key, i: nat, j: nat) returns (m: nat)
    requires i <= j <= |run| && k in At(run, j).handoffs.rows && !HandoffPresent(run, k, i, j)
    ensures i <= m < j && HandoffBorn(run, m, k) && HandoffPresent(run, k, m + 1, j)
    decreases j
  {
    hide StoreModel.At, StoreModel.Apply;
    m := j - 1;
    if k in At(run, j - 1).handoffs.rows {
      m := LastHandoffBirth(run, k, i, j - 1);
    }
  }

  /** With handoff ids that never repeat, two sightings of one id are of one lifetime, and
      an equal revision means an identical handoff. */
  lemma HandoffSightingsShareALifetime(run: seq<Event>, k: Key, i: nat, j: nat)
    requires FreshHandoffs(run) && i <= j <= |run|
    requires k in At(run, i).handoffs.rows && k in At(run, j).handoffs.rows
    ensures HandoffPresent(run, k, i, j)
    ensures HandoffAt(run, k, i) == HandoffAt(run, k, j)
            || HandoffAt(run, k, i).updatedAt < HandoffAt(run, k, j).updatedAt
  {
    hide StoreModel.At, StoreModel.Apply;
    var n := HandoffOrigin(run, i, k);
    if !HandoffPresent(run, k, i, j) {
      var m := LastHandoffBirth(run, k, i, j);
    }
    HandoffRevisionsRise(run, k, i, j);
  }

  /** A token is taken a second time only if the handoff was created anew in between, with a
      revision not above the token. */
  lemma TakenAgainOnlyIfReborn(run: seq<Event>, i: nat, j: nat, k: Key, token: Time)
    requires i < j < |run|
    requires Consumes(run, i, k, token) && Consumes(run, j, k, token)
    ensures exists m: nat ::
      && i < m < j && HandoffBorn(run, m, k) && HandoffPresent(run, k, m + 1, j)
      && HandoffAt(run, k, m + 1).updatedAt <= token
  {
    hide StoreModel.At, StoreModel.Apply;
    ConsumingRaises(run, i, k, token);
    ConsumingMatches(run, j, k, token);
    ConsumesStored(run, j, k, token);
    if HandoffPresent(run, k, i + 1, j) {
      HandoffRevisionsRise(run, k, i + 1, j);
    } else {
      var m := LastHandoffBirth(run, k, i + 1, j);
      HandoffRevisionsRise(run, k, m + 1, j);
    }
  }

  lemma ConsumesStored(run: seq<Event>, i: nat, k: Key, token: Time)
    requires i < |run| && Consumes(run, i, k, token)
    ensures k in At(run, i).handoffs.rows
  {
  }

  /** With handoff ids that never repeat, per handoff and token at most one content-changing
      patch, handoff-changing acceptance or deletion succeeds. */
  lemma OneWriterPerToken(run: seq<Event>, i: nat, j: nat, k: Key, token: Time)
    requires FreshHandoffs(run) && i < j < |run| && Consumes(run, i, k, token)
    ensures !Consumes(run, j, k, token)
  {
    hide StoreModel.At, StoreModel.Apply, Consumes;
    if Consumes(run, j, k, token) {
      ConsumesStored(run, i, k, token);
      TakenAgainOnlyIfReborn(run, i, j, k, token);
      var n := HandoffOrigin(run, i, k);
    }
  }

  /** Under the current token a patch takes the token exactly when it changes content and
      its references resolve; one that changes no content succeeds all the same. */
  lemma TokenTakenExactlyWhen(s: State, projectId: Id, workItemId: Id, id: Id, u: HandoffUpdate, now: Time)
    requires HasWorkItem(s, projectId, workItemId) && HandoffFiled(s, projectId, workItemId, id)
    requires s.handoffs.rows[Key(projectId, id)].updatedAt == u.expectedUpdatedAt
    ensures var h := s.handoffs.rows[Key(projectId, id)];
      var o, g := PatchHandoff(s, projectId, workItemId, id, u, now), Patched(h, u.patch);
      && o.state.handoffs.rows.Keys == s.handoffs.rows.Keys
      && (o.state.handoffs.rows[Key(projectId, id)].updatedAt != u.expectedUpdatedAt <==>
            !SameContent(h, g) && HandoffRefsOk(s, g))
      && (o.reply.Handed? <==> SameContent(h, g) || HandoffRefsOk(s, g))
  {
  }

  /** Sending a successful patch again under the token it returned succeeds, returns the
      same handoff and changes nothing. */
  lemma ResendIsNoop(s: State, projectId: Id, workItemId: Id, id: Id, u: HandoffUpdate, now: Time, later: Time)
    requires PatchHandoff(s, projectId, workItemId, id, u, now).reply.Handed?
    ensures var o := PatchHandoff(s, projectId, workItemId, id, u, now);
      PatchHandoff(o.state, projectId, workItemId, id, u.(expectedUpdatedAt := o.reply.handoff.updatedAt), later) == o
  {
  }
}
