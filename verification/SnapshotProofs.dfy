/** What importing a snapshot does as a whole: round trip, idempotence, and conservative
    merging. */
module SnapshotProofs {
  import opened Domain
  import opened AssignmentRules
  import opened StoreModel
  import opened SnapshotModel

  datatype Loaded = Loaded(state: State, error: Option<Error>)

  /** Import records one by one, stopping at the first refusal. */
  function Load(s: State, recs: seq<Record>): Loaded {
    if recs == [] then Loaded(s, None)
    else
      var l := Load(s, recs[..|recs| - 1]);
      if l.error.Some? then l
      else
        var o := ImportRecord(l.state, recs[|recs| - 1]);
        Loaded(o.state, if o.reply.Refused? then Some(o.reply.error) else None)
  }

  lemma {:induction false} LoadConcat(s: State, recs: seq<Record>, more: seq<Record>)
    ensures Load(s, recs + more) == if Load(s, recs).error.Some? then Load(s, recs) else Load(Load(s, recs).state, more)
  {
    hide SnapshotModel.ImportRecord;
    if more == [] {
      assert recs + more == recs;
    } else {
      var n := |more| - 1;
      assert (recs + more)[..|recs| + n] == recs + more[..n];
      LoadConcat(s, recs, more[..n]);
    }
  }

  /** A load succeeds when its prefix does and the last record is admitted. */
  lemma LoadStep(s: State, recs: seq<Record>, t: Slot)
    requires recs != []
    ensures var n := |recs| - 1;
      var l := Load(s, recs[..n]);
      && (Load(s, recs).error.None? <==> l.error.None? && Admits(l.state, recs[n]))
      && Load(s, recs).state.receipts == l.state.receipts
      && Lookup(Load(s, recs).state, t) ==
           if l.error.None? && Admits(l.state, recs[n])
             && t == SlotOf(recs[n]) then Some(Merge(Lookup(l.state, t), recs[n]))
           else Lookup(l.state, t)
  {
    ImportMeaning(Load(s, recs[..|recs| - 1]).state, recs[|recs| - 1], t);
  }

  lemma {:induction false} PrefixLoads(s: State, recs: seq<Record>, i: nat)
    requires i <= |recs| && Load(s, recs).error.None?
    ensures Load(s, recs[..i]).error.None?
    ensures i < |recs| ==> Admits(Load(s, recs[..i]).state, recs[i])
    decreases |recs|
  {
    if i == |recs| {
      assert recs[..i] == recs;
    } else {
      var n := |recs| - 1;
      LoadStep(s, recs, SlotOf(recs[n]));
      assert recs[..n][..i] == recs[..i];
      PrefixLoads(s, recs[..n], i);
    }
  }

  // ---------------------------------------------------------------- conservative

  /** Slots that the snapshot does not mention are untouched, and existing artifacts,
      evidence and reviews win, even when the import fails half way. */
  lemma {:induction false} LoadIsConservative(s: State, recs: seq<Record>, t: Slot)
    requires (forall i :: 0 <= i < |recs| ==> SlotOf(recs[i]) != t) || (Lookup(s, t).Some? && 5 <= t.rank <= 7)
    ensures Lookup(Load(s, recs).state, t) == Lookup(s, t)
  {
    if recs != [] {
      var n := |recs| - 1;
      LoadIsConservative(s, recs[..n], t);
      LoadStep(s, recs, t);
    }
  }

  /** Nothing after record `i` is for its slot. */
  predicate LastFor(recs: seq<Record>, i: nat)
    requires i < |recs|
  {
    forall j :: i < j < |recs| ==> SlotOf(recs[j]) != SlotOf(recs[i])
  }

  predicate FirstFor(recs: seq<Record>, i: nat)
    requires i < |recs|
  {
    forall j :: 0 <= j < i ==> SlotOf(recs[j]) != SlotOf(recs[i])
  }

  /** After a successful load a slot holds the merge of what it held before its last record
      with that record. */
  lemma LastMerges(s: State, recs: seq<Record>, i: nat)
    requires i < |recs| && Load(s, recs).error.None? && LastFor(recs, i)
    ensures Lookup(Load(s, recs).state, SlotOf(recs[i]))
         == Some(Merge(Lookup(Load(s, recs[..i]).state, SlotOf(recs[i])), recs[i]))
  {
    hide Merge, Admits;
    var front, rest := recs[..i + 1], recs[i + 1..];
    assert front + rest == recs && front[..i] == recs[..i];
    PrefixLoads(s, recs, i);
    PrefixLoads(s, recs, i + 1);
    LoadStep(s, front, SlotOf(recs[i]));
    LoadConcat(s, front, rest);
    LoadIsConservative(Load(s, front).state, rest, SlotOf(recs[i]));
  }

  /** A successful load leaves the last record for each project, skill, role, work item,
      assignment and handoff, whatever was there before. */
  lemma LastRecordWins(s: State, recs: seq<Record>, i: nat)
    requires i < |recs| && Load(s, recs).error.None? && LastFor(recs, i)
    requires !recs[i].ArtifactRec? && !recs[i].EvidenceRec? && !recs[i].ReviewRec?
    requires !recs[i].EntryRec? && !recs[i].CandidateRec?
    ensures Lookup(Load(s, recs).state, SlotOf(recs[i])) == Some(recs[i])
  {
    LastMerges(s, recs, i);
    hide Load, Lookup;
  }

  /** It leaves the first record for each artifact, piece of evidence and review that was not
      stored before. */
  lemma FirstRecordStays(s: State, recs: seq<Record>, i: nat)
    requires i < |recs| && Load(s, recs).error.None? && FirstFor(recs, i)
    requires recs[i].ArtifactRec? || recs[i].EvidenceRec? || recs[i].ReviewRec?
    requires Lookup(s, SlotOf(recs[i])).None?
    ensures Lookup(Load(s, recs).state, SlotOf(recs[i])) == Some(recs[i])
  {
    var t := SlotOf(recs[i]);
    assert 5 <= t.rank <= 7;
    hide Admits, Lookup, Load;
    var front, rest := recs[..i + 1], recs[i + 1..];
    assert front + rest == recs && front[..i] == recs[..i];
    PrefixLoads(s, recs, i);
    PrefixLoads(s, recs, i + 1);
    LoadIsConservative(s, recs[..i], t);
    LoadStep(s, front, t);
    LoadConcat(s, front, rest);
    LoadIsConservative(Load(s, front).state, rest, t);
  }

  /** A memory record, with its creation time, and with another. */
  predicate IsMemory(r: Record) {
    r.EntryRec? || r.CandidateRec?
  }

  function BornAt(r: Record): Time
    requires IsMemory(r)
  {
    if r.EntryRec? then r.entry.createdAt else r.candidate.createdAt
  }

  function Rebirth(r: Record, t: Time): Record
    requires IsMemory(r)
  {
    if r.EntryRec? then EntryRec(r.entry.(createdAt := t)) else CandidateRec(r.candidate.(createdAt := t))
  }

  lemma MergeKeepsBirth(a: Record, r: Record)
    requires IsMemory(r) && Rank(a) == Rank(r)
    ensures IsMemory(a) && Merge(None, r) == r && Merge(Some(a), r) == Rebirth(r, BornAt(a))
  {
  }

  /** When what a slot holds was born: with the stored record, or else with record `i`. */
  function Birth(s: State, r: Record): Time
    requires IsMemory(r)
  {
    var held := Lookup(s, SlotOf(r));
    StoredRank(s, SlotOf(r));
    if held.Some? then BornAt(held.value) else BornAt(r)
  }

  /** From its first record on, a slot of memory holds the birth of the stored record or of
      that first one. */
  lemma {:induction false} BirthKept(s: State, recs: seq<Record>, i: nat, n: nat)
    requires i < n <= |recs| && Load(s, recs).error.None? && FirstFor(recs, i) && IsMemory(recs[i])
    ensures var held := Lookup(Load(s, recs[..n]).state, SlotOf(recs[i]));
      held.Some? && IsMemory(held.value) && BornAt(held.value) == Birth(s, recs[i])
    decreases n
  {
    hide Admits, Load;
    var t := SlotOf(recs[i]);
    assert recs[..n][..n - 1] == recs[..n - 1];
    PrefixLoads(s, recs, n - 1);
    PrefixLoads(s, recs, n);
    LoadStep(s, recs[..n], t);
    StoredRank(Load(s, recs[..n - 1]).state, t);
    StoredRank(Load(s, recs[..n]).state, t);
    if n == i + 1 {
      LoadIsConservative(s, recs[..i], t);
    } else {
      BirthKept(s, recs, i, n - 1);
    }
    hide Lookup;
    if SlotOf(recs[n - 1]) == t {
      var before := Lookup(Load(s, recs[..n - 1]).state, t);
      if before.Some? { MergeKeepsBirth(before.value, recs[n - 1]); }
      hide Merge;
    }
  }

  /** And of memory it leaves the last record but for the creation time, which is that of the
      stored one, or of the first record for the slot. */
  lemma MemoryKeepsItsBirth(s: State, recs: seq<Record>, i: nat, j: nat)
    requires i <= j < |recs| && Load(s, recs).error.None? && FirstFor(recs, i) && LastFor(recs, j)
    requires SlotOf(recs[i]) == SlotOf(recs[j]) && IsMemory(recs[i]) && IsMemory(recs[j])
    ensures Lookup(Load(s, recs).state, SlotOf(recs[j])) == Some(Rebirth(recs[j], Birth(s, recs[i])))
  {
    var t := SlotOf(recs[j]);
    var held := Lookup(Load(s, recs[..j]).state, t);
    LastMerges(s, recs, j);
    StoredRank(Load(s, recs[..j]).state, t);
    if i < j {
      BirthKept(s, recs, i, j);
    } else {
      PrefixLoads(s, recs, i);
      LoadIsConservative(s, recs[..i], t);
    }
    hide Load, Lookup;
    if held.Some? { MergeKeepsBirth(held.value, recs[j]); }
  }

  lemma {:induction false} LoadKeepsReceipts(s: State, recs: seq<Record>)
    ensures Load(s, recs).state.receipts == s.receipts
  {
    if recs != [] {
      LoadKeepsReceipts(s, recs[..|recs| - 1]);
      LoadStep(s, recs, SlotOf(recs[0]));
    }
  }

  // ---------------------------------------------------------------- references

  /** Families come in import order. */
  predicate Ranked(recs: seq<Record>) {
    forall i, j :: 0 <= i <= j < |recs| ==> Rank(recs[i]) <= Rank(recs[j])
  }

  ghost predicate SameBelow(s1: State, s2: State, rank: nat) {
    forall t: Slot :: t.rank < rank ==> Lookup(s1, t) == Lookup(s2, t)
  }

  lemma SameBelowMeans(s1: State, s2: State, rank: nat, k: Key)
    requires SameBelow(s1, s2, rank)
    ensures rank > 0 ==> (k.project in s1.projects.rows <==> k.project in s2.projects.rows)
    ensures rank > 2 ==> (k in s1.roles.rows <==> k in s2.roles.rows)
    ensures rank > 3 ==> (k in s1.workItems.rows <==> k in s2.workItems.rows)
    ensures rank > 4 ==> (k in s1.assignments.rows <==> k in s2.assignments.rows)
    ensures rank > 4 && k in s1.assignments.rows ==> s1.assignments.rows[k] == s2.assignments.rows[k]
  {
    if rank > 0 { assert Lookup(s1, Slot(0, Key(k.project, Blank))) == Lookup(s2, Slot(0, Key(k.project, Blank))); }
    if rank > 2 { assert Lookup(s1, Slot(2, k)) == Lookup(s2, Slot(2, k)); }
    if rank > 3 { assert Lookup(s1, Slot(3, k)) == Lookup(s2, Slot(3, k)); }
    if rank > 4 { assert Lookup(s1, Slot(4, k)) == Lookup(s2, Slot(4, k)); }
  }

  /** The family order is a dependency order: a record refers only to earlier families. */
  lemma ResolvesBelow(s1: State, s2: State, r: Record)
    requires SameBelow(s1, s2, Rank(r))
    ensures Resolves(s1, r) == Resolves(s2, r)
  {
    hide SameBelow;
    forall k: Key
      ensures Rank(r) > 0 ==> (k.project in s1.projects.rows <==> k.project in s2.projects.rows)
      ensures Rank(r) > 2 ==> (k in s1.roles.rows <==> k in s2.roles.rows)
      ensures Rank(r) > 3 ==> (k in s1.workItems.rows <==> k in s2.workItems.rows)
      ensures Rank(r) > 4 ==> (k in s1.assignments.rows <==> k in s2.assignments.rows)
      ensures Rank(r) > 4 && k in s1.assignments.rows ==> s1.assignments.rows[k] == s2.assignments.rows[k]
    {
      SameBelowMeans(s1, s2, Rank(r), k);
    }
    var k := SlotOf(r).key;
    assert Rank(r) > 0 ==> (k.project in s1.projects.rows <==> k.project in s2.projects.rows);
  }

  // ---------------------------------------------------------------- round trip

  /** `recs` lists every record of `s` once, family by family, in any order within one. */
  ghost predicate Lists(s: State, recs: seq<Record>) {
    && Ranked(recs)
    && (forall i, j :: 0 <= i < j < |recs| ==> SlotOf(recs[i]) != SlotOf(recs[j]))
    && (forall i :: 0 <= i < |recs| ==> Lookup(s, SlotOf(recs[i])) == Some(recs[i]))
    && (forall t: Slot :: Lookup(s, t).Some? ==> Mentions(recs, t))
  }

  predicate Mentions(recs: seq<Record>, t: Slot) {
    exists i :: 0 <= i < |recs| && SlotOf(recs[i]) == t
  }

  /** Every stored record finds everything it refers to. */
  ghost predicate SelfContained(s: State) {
    forall t: Slot :: Lookup(s, t).Some? ==> Resolves(s, Lookup(s, t).value)
  }

  /** After the first `i` records the store holds exactly those. */
  ghost predicate Restored(s: State, recs: seq<Record>, i: nat, l: State)
    requires i <= |recs|
  {
    forall t: Slot :: Lookup(l, t) == if Mentions(recs[..i], t) then Lookup(s, t) else None
  }

  /** When record `i` comes up, everything it could refer to is in place. */
  lemma RestoredBelow(s: State, recs: seq<Record>, i: nat, l: State)
    requires Lists(s, recs) && i < |recs| && Restored(s, recs, i, l)
    ensures SameBelow(s, l, Rank(recs[i]))
    ensures Lookup(l, SlotOf(recs[i])).None?
  {
  }

  lemma {:induction false} RestoreStep(s: State, recs: seq<Record>, i: nat)
    requires Lists(s, recs) && i < |recs|
    requires var l := Load(EMPTY, recs[..i]);
      l.error.None? && Restored(s, recs, i, l.state) && Resolves(s, recs[i])
    ensures var l := Load(EMPTY, recs[..i + 1]);
      l.error.None? && Restored(s, recs, i + 1, l.state)
  {
    var l := Load(EMPTY, recs[..i]).state;
    assert recs[..i + 1][..i] == recs[..i];
    RestoredBelow(s, recs, i, l);
    ResolvesBelow(s, l, recs[i]);
    LoadStep(EMPTY, recs[..i + 1], SlotOf(recs[i]));
    var l' := Load(EMPTY, recs[..i + 1]).state;
    forall t: Slot
      ensures Lookup(l', t) == if Mentions(recs[..i + 1], t) then Lookup(s, t) else None
    {
      LoadStep(EMPTY, recs[..i + 1], t);
      MentionsNext(recs, i, t);
    }
  }

  lemma MentionsNext(recs: seq<Record>, i: nat, t: Slot)
    requires i < |recs|
    ensures Mentions(recs[..i + 1], t) <==> Mentions(recs[..i], t) || SlotOf(recs[i]) == t
  {
  }

  lemma {:induction false} RestorePrefix(s: State, recs: seq<Record>, i: nat)
    requires Lists(s, recs) && i <= |recs|
    requires forall j :: 0 <= j < i ==> Resolves(s, recs[j])
    ensures var l := Load(EMPTY, recs[..i]);
      l.error.None? && Restored(s, recs, i, l.state)
  {
    if i > 0 {
      RestorePrefix(s, recs, i - 1);
      RestoreStep(s, recs, i - 1);
    }
  }

  /** Importing an export into an empty store succeeds exactly when every reference in it
      resolves, and then gives back the same store, receipts aside. */
  lemma RoundTrip(s: State, recs: seq<Record>)
    requires Lists(s, recs)
    ensures Load(EMPTY, recs).error.None? <==> SelfContained(s)
    ensures SelfContained(s) ==> Load(EMPTY, recs).state == s.(receipts := EMPTY.receipts)
  {
    if SelfContained(s) {
      ComesBack(s, recs);
    }
    if Load(EMPTY, recs).error.None? {
      ComesFromSelfContained(s, recs);
    }
  }

  lemma ComesBack(s: State, recs: seq<Record>)
    requires Lists(s, recs) && SelfContained(s)
    ensures Load(EMPTY, recs).error.None?
    ensures Load(EMPTY, recs).state == s.(receipts := EMPTY.receipts)
  {
    RestorePrefix(s, recs, |recs|);
    assert recs[..|recs|] == recs;
    var l, bare := Load(EMPTY, recs).state, s.(receipts := EMPTY.receipts);
    LoadKeepsReceipts(EMPTY, recs);
    forall t: Slot
      ensures Lookup(l, t) == Lookup(bare, t)
    {
      hide SelfContained, Load;
      LookupIgnoresReceipts(s, t);
      assert Lookup(s, t).Some? ==> Mentions(recs, t);
    }
    hide *;
    SlotsAreTheStore(l, bare);
  }

  lemma LookupIgnoresReceipts(s: State, t: Slot)
    ensures Lookup(s.(receipts := EMPTY.receipts), t) == Lookup(s, t)
  {
  }

  lemma ComesFromSelfContained(s: State, recs: seq<Record>)
    requires Lists(s, recs) && Load(EMPTY, recs).error.None?
    ensures SelfContained(s)
  {
    LoadedIsSelfContained(s, recs, |recs|);
    forall t: Slot | Lookup(s, t).Some?
      ensures Resolves(s, Lookup(s, t).value)
    {
      assert Mentions(recs, t);
      var i :| 0 <= i < |recs| && SlotOf(recs[i]) == t;
      assert Resolves(s, recs[i]);
    }
  }

  lemma {:induction false} LoadedIsSelfContained(s: State, recs: seq<Record>, i: nat)
    requires Lists(s, recs) && i <= |recs| && Load(EMPTY, recs).error.None?
    ensures forall j :: 0 <= j < i ==> Resolves(s, recs[j])
  {
    if i > 0 {
      LoadedIsSelfContained(s, recs, i - 1);
      RestorePrefix(s, recs, i - 1);
      PrefixLoads(EMPTY, recs, i - 1);
      var l := Load(EMPTY, recs[..i - 1]).state;
      RestoredBelow(s, recs, i - 1, l);
      ResolvesBelow(s, l, recs[i - 1]);
    }
  }

  // ---------------------------------------------------------------- idempotence

  /** What a slot holding `held` holds after the records. */
  function Fold(recs: seq<Record>, t: Slot, held: Option<Record>): Option<Record> {
    if recs == [] then held
    else
      var n := |recs| - 1;
      var h := Fold(recs[..n], t, held);
      if SlotOf(recs[n]) == t then Some(Merge(h, recs[n])) else h
  }

  lemma {:induction false} LoadIsFold(s: State, recs: seq<Record>, t: Slot)
    requires Load(s, recs).error.None?
    ensures Lookup(Load(s, recs).state, t) == Fold(recs, t, Lookup(s, t))
  {
    if recs != [] {
      LoadStep(s, recs, t);
      LoadIsFold(s, recs[..|recs| - 1], t);
    }
  }

  /** The last record for a slot. */
  function Last(recs: seq<Record>, t: Slot): Option<Record> {
    if recs == [] then None
    else if SlotOf(recs[|recs| - 1]) == t then Some(recs[|recs| - 1])
    else Last(recs[..|recs| - 1], t)
  }

  lemma {:induction false} LastIsListed(recs: seq<Record>, t: Slot)
    ensures Last(recs, t).Some? <==> Mentions(recs, t)
    ensures Last(recs, t).Some? ==> exists i :: 0 <= i < |recs| && recs[i] == Last(recs, t).value
                                      && SlotOf(recs[i]) == t
  {
    if recs != [] {
      var n := |recs| - 1;
      LastIsListed(recs[..n], t);
      assert recs[..n + 1] == recs;
      MentionsNext(recs, n, t);
      if SlotOf(recs[n]) != t && Last(recs[..n], t).Some? {
        var i :| 0 <= i < n && recs[..n][i] == Last(recs[..n], t).value && SlotOf(recs[..n][i]) == t;
        assert recs[i] == Last(recs, t).value;
      }
    }
  }

  predicate Fits(held: Option<Record>, t: Slot) {
    held.Some? ==> Rank(held.value) == t.rank
  }

  lemma {:induction false} FoldFrom(recs: seq<Record>, t: Slot, a: Record)
    requires Rank(a) == t.rank
    ensures Fold(recs, t, Some(a)) == Some(if Last(recs, t).None? then a else Blend(a, Last(recs, t).value))
    ensures Fits(Fold(recs, t, Some(a)), t)
    ensures Last(recs, t).Some? ==> Rank(Last(recs, t).value) == t.rank
  {
    if recs != [] {
      var n := |recs| - 1;
      FoldFrom(recs[..n], t, a);
      if SlotOf(recs[n]) == t {
        var l := Last(recs[..n], t);
        BlendIsABand(a, if l.None? then a else l.value, recs[n]);
      }
    }
  }

  /** The fold has absorbed its last record. */
  lemma {:induction false} FoldAbsorbs(recs: seq<Record>, t: Slot, held: Option<Record>)
    requires Fits(held, t) && Last(recs, t).Some?
    ensures var y := Fold(recs, t, held);
      y.Some? && Rank(y.value) == t.rank == Rank(Last(recs, t).value) && Blend(y.value, Last(recs, t).value) == y.value
  {
    var n := |recs| - 1;
    if SlotOf(recs[n]) == t {
      FoldFits(recs[..n], t, held);
      var h := Fold(recs[..n], t, held);
      var b := if h.None? then recs[n] else h.value;
      BlendIsABand(b, recs[n], recs[n]);
    } else {
      FoldAbsorbs(recs[..n], t, held);
    }
  }

  lemma {:induction false} FoldFits(recs: seq<Record>, t: Slot, held: Option<Record>)
    requires Fits(held, t)
    ensures Fits(Fold(recs, t, held), t)
    ensures Last(recs, t).None? ==> Fold(recs, t, held) == held
  {
    if recs != [] {
      var n := |recs| - 1;
      FoldFits(recs[..n], t, held);
      var h := Fold(recs[..n], t, held);
      if SlotOf(recs[n]) == t && h.Some? {
        BlendIsABand(h.value, recs[n], recs[n]);
      }
    }
  }

  /** Folding the same records again changes nothing. */
  lemma FoldTwice(recs: seq<Record>, t: Slot, held: Option<Record>)
    requires Fits(held, t)
    ensures Fold(recs, t, Fold(recs, t, held)) == Fold(recs, t, held)
  {
    FoldFits(recs, t, held);
    var y := Fold(recs, t, held);
    if Last(recs, t).None? {
      FoldFits(recs, t, y);
    } else {
      FoldAbsorbs(recs, t, held);
      FoldFrom(recs, t, y.value);
    }
  }

  /** When record `i` comes up, the slots of earlier families have reached their final
      value. */
  lemma {:induction false} FoldSettled(recs: seq<Record>, i: nat, t: Slot, held: Option<Record>)
    requires Ranked(recs) && i <= |recs| && (i < |recs| ==> t.rank < Rank(recs[i]))
    ensures Fold(recs[..i], t, held) == Fold(recs, t, held)
    decreases |recs|
  {
    if i == |recs| {
      assert recs[..i] == recs;
    } else {
      var n := |recs| - 1;
      assert recs[..n][..i] == recs[..i];
      assert Rank(recs[i]) <= Rank(recs[n]);
      FoldSettled(recs[..n], i, t, held);
    }
  }

  predicate HeldAt(held: Option<Record>, workItemId: Id) {
    held.Some? && held.value.HandoffRec? && held.value.handoff.workItemId == workItemId
  }

  /** A successful import leaves a handoff under the work item each of its records names. */
  lemma {:induction false} HandoffHome(s: State, recs: seq<Record>, i: nat)
    requires Load(s, recs).error.None? && i < |recs| && recs[i].HandoffRec?
    ensures HeldAt(Lookup(Load(s, recs).state, SlotOf(recs[i])), recs[i].handoff.workItemId)
    decreases |recs|
  {
    hide Load, SnapshotModel.Resolves, SnapshotModel.Lookup;
    var n := |recs| - 1;
    var t := SlotOf(recs[i]);
    LoadStep(s, recs, t);
    if i < n {
      HandoffHome(s, recs[..n], i);
      if SlotOf(recs[n]) == t {
        WrittenHome(Load(s, recs[..n]).state, recs[n], t, recs[i].handoff.workItemId);
      }
    }
  }

  /** An admitted record leaves a handoff where it is. */
  lemma WrittenHome(s: State, r: Record, t: Slot, workItemId: Id)
    requires HeldAt(Lookup(s, t), workItemId) && t == SlotOf(r) && Admits(s, r) && t.rank == 8
    ensures HeldAt(Some(Merge(Lookup(s, t), r)), workItemId)
  {
  }

  /** The slot of a handoff record during the second import. */
  lemma HandoffHomeAgain(s: State, recs: seq<Record>, i: nat)
    requires Load(s, recs).error.None? && i < |recs| && recs[i].HandoffRec?
    ensures var t := SlotOf(recs[i]);
      HeldAt(Fold(recs[..i], t, Lookup(Load(s, recs).state, t)), recs[i].handoff.workItemId)
  {
    var t := SlotOf(recs[i]);
    HandoffHome(s, recs, i);
    var held := Lookup(Load(s, recs).state, t);
    FoldFrom(recs[..i], t, held.value);
    LastIsListed(recs[..i], t);
    var last := Last(recs[..i], t);
    if last.Some? {
      var m :| 0 <= m < i && recs[..i][m] == last.value && SlotOf(recs[..i][m]) == t;
      HandoffHome(s, recs, m);
    }
  }

  /** Every imported assignment names a stored role. */
  predicate RolesFound(s: State, recs: seq<Record>) {
    forall i :: 0 <= i < |recs| && recs[i].AssignmentRec? ==>
      Key(recs[i].assignment.projectId, recs[i].assignment.roleId) in s.roles.rows
  }

  /** The second import has reached record `i`: earlier families are back to what they
      were, and the slot of the record is taken. */
  lemma SecondPassSees(s: State, recs: seq<Record>, i: nat)
    requires Ranked(recs) && Load(s, recs).error.None? && i < |recs|
    requires Load(Load(s, recs).state, recs[..i]).error.None?
    ensures var s1 := Load(s, recs).state; var l := Load(s1, recs[..i]).state;
      && SameBelow(s1, l, Rank(recs[i]))
      && Resolves(l, recs[i])
      && Lookup(l, SlotOf(recs[i])).Some?
      && (recs[i].HandoffRec? ==> HeldAt(Lookup(l, SlotOf(recs[i])), recs[i].handoff.workItemId))
  {
    var s1 := Load(s, recs).state;
    var l := Load(s1, recs[..i]).state;
    PrefixLoads(s, recs, i);
    var first := Load(s, recs[..i]).state;
    forall t: Slot | t.rank < Rank(recs[i])
      ensures Lookup(s1, t) == Lookup(l, t) == Lookup(first, t)
    {
      LoadIsFold(s, recs, t);
      LoadIsFold(s, recs[..i], t);
      LoadIsFold(s1, recs[..i], t);
      FoldSettled(recs, i, t, Lookup(s, t));
      FoldSettled(recs, i, t, Lookup(s1, t));
      StoredRank(s, t);
      FoldTwice(recs, t, Lookup(s, t));
    }
    ResolvesBelow(first, l, recs[i]);
    var t := SlotOf(recs[i]);
    LoadIsFold(s1, recs[..i], t);
    SlotIsTaken(s, recs, i);
    StoredRank(s1, t);
    FoldFrom(recs[..i], t, Lookup(s1, t).value);
    if recs[i].HandoffRec? {
      HandoffHomeAgain(s, recs, i);
    }
  }

  lemma SlotIsTaken(s: State, recs: seq<Record>, i: nat)
    requires Load(s, recs).error.None? && i < |recs|
    ensures Lookup(Load(s, recs).state, SlotOf(recs[i])).Some?
  {
    var t := SlotOf(recs[i]);
    LoadIsFold(s, recs, t);
    LastIsListed(recs, t);
    assert Mentions(recs, t);
    StoredRank(s, t);
    FoldAbsorbs(recs, t, Lookup(s, t));
  }

  lemma {:induction false} SecondPass(s: State, recs: seq<Record>, i: nat)
    requires Ranked(recs) && Load(s, recs).error.None? && i <= |recs|
    requires RolesFound(Load(s, recs).state, recs)
    ensures Load(Load(s, recs).state, recs[..i]).error.None?
  {
    if i > 0 {
      SecondPass(s, recs, i - 1);
      SecondPassSees(s, recs, i - 1);
      var s1 := Load(s, recs).state;
      var l := Load(s1, recs[..i - 1]).state;
      var r := recs[i - 1];
      if r.AssignmentRec? {
        SameBelowMeans(s1, l, Rank(r), Key(r.assignment.projectId, r.assignment.roleId));
      }
      assert recs[..i][..i - 1] == recs[..i - 1];
      LoadStep(s1, recs[..i], SlotOf(r));
    }
  }

  /** Importing a snapshot that was just imported succeeds exactly when every assignment in
      it names a stored role, and then changes nothing. */
  lemma ImportTwice(s: State, recs: seq<Record>)
    requires Ranked(recs) && Load(s, recs).error.None?
    ensures var s1 := Load(s, recs).state;
      && (Load(s1, recs).error.None? <==> RolesFound(s1, recs))
      && (RolesFound(s1, recs) ==> Load(s1, recs).state == s1)
  {
    var s1 := Load(s, recs).state;
    assert recs[..|recs|] == recs;
    if RolesFound(s1, recs) {
      SecondPass(s, recs, |recs|);
      forall t: Slot
        ensures Lookup(Load(s1, recs).state, t) == Lookup(s1, t)
      {
        LoadIsFold(s, recs, t);
        LoadIsFold(s1, recs, t);
        StoredRank(s, t);
        FoldTwice(recs, t, Lookup(s, t));
      }
      LoadKeepsReceipts(s1, recs);
      SlotsAreTheStore(Load(s1, recs).state, s1);
    }
    if Load(s1, recs).error.None? {
      forall i | 0 <= i < |recs| && recs[i].AssignmentRec?
        ensures Key(recs[i].assignment.projectId, recs[i].assignment.roleId) in s1.roles.rows
      {
        PrefixLoads(s1, recs, i);
        SecondPassSees(s, recs, i);
        SameBelowMeans(s1, Load(s1, recs[..i]).state, 4, Key(recs[i].assignment.projectId, recs[i].assignment.roleId));
      }
    }
  }

  /** A snapshot whose assignments all have a role can be imported again. */
  lemma NamedRolesAreFound(s: State, recs: seq<Record>)
    requires Ranked(recs) && Load(s, recs).error.None?
    requires forall i :: 0 <= i < |recs| && recs[i].AssignmentRec? ==> recs[i].assignment.roleId != Blank
    ensures RolesFound(Load(s, recs).state, recs)
  {
    forall i | 0 <= i < |recs| && recs[i].AssignmentRec?
      ensures Key(recs[i].assignment.projectId, recs[i].assignment.roleId) in Load(s, recs).state.roles.rows
    {
      var k := Key(recs[i].assignment.projectId, recs[i].assignment.roleId);
      var t := Slot(2, k);
      PrefixLoads(s, recs, i);
      LoadIsFold(s, recs, t);
      LoadIsFold(s, recs[..i], t);
      FoldSettled(recs, i, t, Lookup(s, t));
      assert Lookup(Load(s, recs[..i]).state, t).Some?;
    }
  }
}
