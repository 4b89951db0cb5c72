/** Exporting a store: nested listings that visit every record once. */
module SnapshotExport {
  import opened Domain
  import opened AssignmentRules
  import opened StoreModel
  import opened SnapshotModel
  import opened SnapshotProofs
  import opened Snapshots
  import opened Filing
  import opened Integrity
  import opened MemoryStore

  /** What a record is listed under: its project, or its work item. */
  function Owner(r: Record): Key {
    match r
    case ProjectRec(_) => Key(Blank, Blank)
    case SkillRec(x) => Key(x.projectId, Blank)
    case RoleRec(x) => Key(x.projectId, Blank)
    case WorkItemRec(x) => Key(x.projectId, Blank)
    case AssignmentRec(x) => Key(x.projectId, Blank)
    case ArtifactRec(x) => Key(x.projectId, x.workItemId)
    case EvidenceRec(x) => Key(x.projectId, x.workItemId)
    case ReviewRec(x) => Key(x.projectId, x.workItemId)
    case HandoffRec(x) => Key(x.projectId, x.workItemId)
    case EntryRec(x) => Key(x.projectId, Blank)
    case CandidateRec(x) => Key(x.projectId, Blank)
  }

  predicate UnderWorkItem(rank: nat) {
    5 <= rank <= 8
  }

  /** `out` lists each record of the family with one of these owners exactly once. */
  ghost predicate Collects(s: State, rank: nat, owners: set<Key>, out: seq<Record>) {
    && (forall i, j :: 0 <= i < j < |out| ==> SlotOf(out[i]) != SlotOf(out[j]))
    && (forall i :: 0 <= i < |out| ==>
          Rank(out[i]) == rank && Owner(out[i]) in owners && Lookup(s, SlotOf(out[i])) == Some(out[i]))
    && (forall t: Slot :: t.rank == rank && Lookup(s, t).Some? && Owner(Lookup(s, t).value) in owners
          ==> Mentions(out, t))
  }

  lemma CollectsMore(s: State, rank: nat, owners: set<Key>, owner: Key, front: seq<Record>, back: seq<Record>)
    requires Collects(s, rank, owners, front) && Collects(s, rank, {owner}, back) && owner !in owners
    ensures Collects(s, rank, owners + {owner}, front + back)
  {
    var out := front + back;
    assert forall i :: 0 <= i < |front| ==> out[i] == front[i];
    assert forall j :: 0 <= j < |back| ==> out[|front| + j] == back[j];
    forall i, j | 0 <= i < |front| && 0 <= j < |back|
      ensures SlotOf(front[i]) != SlotOf(back[j])
    {
      assert Lookup(s, SlotOf(front[i])) == Some(front[i]);
      assert Lookup(s, SlotOf(back[j])) == Some(back[j]);
    }
    forall t: Slot | Mentions(front, t) || Mentions(back, t)
      ensures Mentions(out, t)
    {
      if Mentions(front, t) {
        var i :| 0 <= i < |front| && SlotOf(front[i]) == t;
        assert SlotOf(out[i]) == t;
      } else {
        var j :| 0 <= j < |back| && SlotOf(back[j]) == t;
        assert SlotOf(out[|front| + j]) == t;
      }
    }
  }

  predicate HasKey(out: seq<Record>, k: Key) {
    exists i :: 0 <= i < |out| && SlotOf(out[i]).key == k
  }

  /** A `List...` method of the store: the rows of one table with one owner. */
  method ListRows<V>(rows: map<Key, V>, wrap: V -> Record, owner: Key) returns (out: seq<Record>)
    requires forall k :: k in rows ==> SlotOf(wrap(rows[k])).key == k
    ensures forall i, j :: 0 <= i < j < |out| ==> SlotOf(out[i]) != SlotOf(out[j])
    ensures forall i :: 0 <= i < |out| ==>
      var k := SlotOf(out[i]).key; k in rows && out[i] == wrap(rows[k]) && Owner(out[i]) == owner
    ensures forall k :: k in rows && Owner(wrap(rows[k])) == owner ==> HasKey(out, k)
  {
    out := [];
    var rest := rows.Keys;
    while rest != {}
      invariant rest <= rows.Keys
      invariant forall i, j :: 0 <= i < j < |out| ==> SlotOf(out[i]) != SlotOf(out[j])
      invariant forall i :: 0 <= i < |out| ==>
        var k := SlotOf(out[i]).key; k in rows && k !in rest && out[i] == wrap(rows[k]) && Owner(out[i]) == owner
      invariant forall k :: k in rows && k !in rest && Owner(wrap(rows[k])) == owner ==> HasKey(out, k)
    {
      var k :| k in rest;
      rest := rest - {k};
      if Owner(wrap(rows[k])) == owner {
        ghost var before := out;
        out := out + [wrap(rows[k])];
        assert SlotOf(out[|before|]).key == k;
        forall k' | HasKey(before, k')
          ensures HasKey(out, k')
        {
          var i :| 0 <= i < |before| && SlotOf(before[i]).key == k';
          assert SlotOf(out[i]).key == k';
        }
      }
    }
  }

  lemma ListedIsCollected(s: State, rank: nat, owner: Key, out: seq<Record>)
    requires forall i, j :: 0 <= i < j < |out| ==> SlotOf(out[i]) != SlotOf(out[j])
    requires forall i :: 0 <= i < |out| ==>
               Rank(out[i]) == rank && Owner(out[i]) == owner && Lookup(s, SlotOf(out[i])) == Some(out[i])
    requires forall k :: Lookup(s, Slot(rank, k)).Some? && Owner(Lookup(s, Slot(rank, k)).value) == owner
               ==> HasKey(out, k)
    ensures Collects(s, rank, {owner}, out)
  {
  }

  /** The listing of one family under one owner. */
  method ListOwned(store: MemoryStore, rank: nat, owner: Key) returns (out: seq<Record>)
    requires 1 <= rank < FAMILIES && Filed(store.View())
    ensures Collects(store.View(), rank, {owner}, out)
  {
    if rank <= 4 {
      out := ListPlans(store, rank, owner);
    } else if rank <= 6 {
      out := ListOutputs(store, rank, owner);
    } else if rank <= 8 {
      out := ListReviews(store, rank, owner);
    } else {
      out := ListMemory(store, rank, owner);
    }
  }

  method ListPlans(store: MemoryStore, rank: nat, owner: Key) returns (out: seq<Record>)
    requires 1 <= rank <= 4 && Filed(store.View())
    ensures Collects(store.View(), rank, {owner}, out)
  {
    match rank {
      case 1 => out := ListRows(store.skills, x => SkillRec(x), owner);
      case 2 => out := ListRows(store.roles, x => RoleRec(x), owner);
      case 3 => out := ListRows(store.workItems, x => WorkItemRec(x), owner);
      case _ => out := ListRows(store.assignments, x => AssignmentRec(x), owner);
    }
    ListedIsCollected(store.View(), rank, owner, out);
  }

  method ListOutputs(store: MemoryStore, rank: nat, owner: Key) returns (out: seq<Record>)
    requires 5 <= rank <= 6 && Filed(store.View())
    ensures Collects(store.View(), rank, {owner}, out)
  {
    if rank == 5 {
      out := ListRows(store.artifacts, x => ArtifactRec(x), owner);
    } else {
      out := ListRows(store.evidence, x => EvidenceRec(x), owner);
    }
    ListedIsCollected(store.View(), rank, owner, out);
  }

  method ListReviews(store: MemoryStore, rank: nat, owner: Key) returns (out: seq<Record>)
    requires 7 <= rank <= 8 && Filed(store.View())
    ensures Collects(store.View(), rank, {owner}, out)
  {
    if rank == 7 {
      out := ListRows(store.reviews, x => ReviewRec(x), owner);
    } else {
      out := ListRows(store.handoffs, x => HandoffRec(x), owner);
    }
    ListedIsCollected(store.View(), rank, owner, out);
  }

  method ListMemory(store: MemoryStore, rank: nat, owner: Key) returns (out: seq<Record>)
    requires 9 <= rank <= 10 && Filed(store.View())
    ensures Collects(store.View(), rank, {owner}, out)
  {
    if rank == 9 {
      out := ListRows(store.entries, x => EntryRec(x), owner);
    } else {
      out := ListRows(store.candidates, x => CandidateRec(x), owner);
    }
    ListedIsCollected(store.View(), rank, owner, out);
  }

  /** `ListProjects`. */
  method ListProjects(store: MemoryStore) returns (out: seq<Record>)
    requires Filed(store.View())
    ensures Collects(store.View(), 0, {Key(Blank, Blank)}, out)
  {
    out := [];
    var rest := store.projects.Keys;
    while rest != {}
      invariant rest <= store.projects.Keys
      invariant forall i, j :: 0 <= i < j < |out| ==> SlotOf(out[i]) != SlotOf(out[j])
      invariant forall i :: 0 <= i < |out| ==>
        out[i].ProjectRec? && out[i].project.id !in rest && Lookup(store.View(), SlotOf(out[i])) == Some(out[i])
      invariant forall id :: id in store.projects && id !in rest ==> HasKey(out, Key(id, Blank))
    {
      var id :| id in rest;
      rest := rest - {id};
      ghost var before := out;
      out := out + [ProjectRec(store.projects[id])];
      assert SlotOf(out[|before|]).key == Key(id, Blank);
      forall k' | HasKey(before, k')
        ensures HasKey(out, k')
      {
        var i :| 0 <= i < |before| && SlotOf(before[i]).key == k';
        assert SlotOf(out[i]).key == k';
      }
    }
    ListedIsCollected(store.View(), 0, Key(Blank, Blank), out);
  }

  const PROJECT_FAMILIES: seq<nat> := [1, 2, 3, 4, 9, 10]
  const WORK_ITEM_FAMILIES: seq<nat> := [5, 6, 7, 8]

  ghost predicate CollectsEach(s: State, ranks: seq<nat>, owners: set<Key>, families: seq<seq<Record>>)
    requires |families| == FAMILIES
  {
    forall r :: r in ranks && r < FAMILIES ==> Collects(s, r, owners, families[r])
  }

  predicate RanksOk(ranks: seq<nat>) {
    && (forall i :: 0 <= i < |ranks| ==> 1 <= ranks[i] < FAMILIES)
    && (forall i, j :: 0 <= i < j < |ranks| ==> ranks[i] != ranks[j])
  }

  /** Append what one owner holds to each of these families. */
  method Append(store: MemoryStore, before: seq<seq<Record>>, ranks: seq<nat>, owner: Key, ghost owners: set<Key>)
    returns (families: seq<seq<Record>>)
    requires Filed(store.View()) && |before| == FAMILIES && RanksOk(ranks) && owner !in owners
    requires CollectsEach(store.View(), ranks, owners, before)
    ensures |families| == FAMILIES
    ensures CollectsEach(store.View(), ranks, owners + {owner}, families)
    ensures forall r: nat :: r < FAMILIES && r !in ranks ==> families[r] == before[r]
  {
    families := before;
    for i := 0 to |ranks|
      invariant |families| == FAMILIES
      invariant CollectsEach(store.View(), ranks[..i], owners + {owner}, families)
      invariant forall r: nat :: r < FAMILIES && r !in ranks[..i] ==> families[r] == before[r]
    {
      var rank := ranks[i];
      assert rank !in ranks[..i] && rank in ranks;
      var more := ListOwned(store, rank, owner);
      CollectsMore(store.View(), rank, owners, owner, families[rank], more);
      families := families[rank := families[rank] + more];
    }
    assert ranks[..|ranks|] == ranks;
  }

  /** The owners of a project's work items. */
  ghost function Homes(items: seq<Record>, n: nat): set<Key>
    requires n <= |items|
  {
    set i | 0 <= i < n :: SlotOf(items[i]).key
  }

  /** The inner loop over the work items of one project. */
  method AppendWork(store: MemoryStore, before: seq<seq<Record>>, projectId: Id, ghost homes: set<Key>)
    returns (families: seq<seq<Record>>)
    requires Filed(store.View()) && |before| == FAMILIES
    requires forall k :: k in homes ==> k.project != projectId
    requires CollectsEach(store.View(), WORK_ITEM_FAMILIES, homes, before)
    ensures |families| == FAMILIES
    ensures CollectsEach(store.View(), WORK_ITEM_FAMILIES, homes + HomesOf(store.View(), projectId), families)
    ensures forall r: nat :: r < FAMILIES && r !in WORK_ITEM_FAMILIES ==> families[r] == before[r]
  {
    families := before;
    var items := ListOwned(store, 3, Key(projectId, Blank));
    assert homes + Homes(items, 0) == homes;
    for i := 0 to |items|
      invariant |families| == FAMILIES
      invariant CollectsEach(store.View(), WORK_ITEM_FAMILIES, homes + Homes(items, i), families)
      invariant forall r: nat :: r < FAMILIES && r !in WORK_ITEM_FAMILIES ==> families[r] == before[r]
    {
      var home := SlotOf(items[i]).key;
      NextHome(store.View(), projectId, items, i, homes);
      families := Append(store, families, WORK_ITEM_FAMILIES, home, homes + Homes(items, i));
    }
    HomesAreAll(store.View(), projectId, items);
  }

  ghost function HomesOf(s: State, projectId: Id): set<Key> {
    set k | k in s.workItems.rows && k.project == projectId
  }

  lemma NextHome(s: State, projectId: Id, items: seq<Record>, i: nat, homes: set<Key>)
    requires i < |items| && Collects(s, 3, {Key(projectId, Blank)}, items)
    requires Filed(s) && forall k :: k in homes ==> k.project != projectId
    ensures SlotOf(items[i]).key !in homes + Homes(items, i)
    ensures homes + Homes(items, i + 1) == homes + Homes(items, i) + {SlotOf(items[i]).key}
  {
  }

  lemma HomesAreAll(s: State, projectId: Id, items: seq<Record>)
    requires Filed(s) && Collects(s, 3, {Key(projectId, Blank)}, items)
    ensures Homes(items, |items|) == HomesOf(s, projectId)
  {
    forall k | k in HomesOf(s, projectId)
      ensures k in Homes(items, |items|)
    {
      assert Lookup(s, Slot(3, k)).Some?;
      assert Mentions(items, Slot(3, k));
    }
    forall k | k in Homes(items, |items|)
      ensures k in HomesOf(s, projectId)
    {
      var i :| 0 <= i < |items| && SlotOf(items[i]).key == k;
      assert Lookup(s, SlotOf(items[i])) == Some(items[i]);
    }
  }

  // ---------------------------------------------------------------- the whole listing

  /** Every record is listed under something that the export visits. */
  lemma OwnersAreVisited(s: State, t: Slot)
    requires Filed(s) && RefsOk(s) && Lookup(s, t).Some?
    ensures var o := Owner(Lookup(s, t).value);
      if t.rank == 0 then o == Key(Blank, Blank)
      else if UnderWorkItem(t.rank) then o in s.workItems.rows && o.project in s.projects.rows
      else o.id == Blank && o.project in s.projects.rows
  {
    if UnderWorkItem(t.rank) {
      OwnedByWorkItem(s, t);
    } else {
      OwnedByProject(s, t);
    }
  }

  lemma OwnedByWorkItem(s: State, t: Slot)
    requires Filed(s) && RefsOk(s) && Lookup(s, t).Some? && UnderWorkItem(t.rank)
    ensures var o := Owner(Lookup(s, t).value); o in s.workItems.rows && o.project in s.projects.rows
  {
  }

  lemma OwnedByProject(s: State, t: Slot)
    requires Filed(s) && RefsOk(s) && Lookup(s, t).Some? && !UnderWorkItem(t.rank)
    ensures var o := Owner(Lookup(s, t).value);
      if t.rank == 0 then o == Key(Blank, Blank) else o.id == Blank && o.project in s.projects.rows
  {
  }

  ghost predicate CollectsAll(s: State, rank: nat, out: seq<Record>) {
    && (forall i, j :: 0 <= i < j < |out| ==> SlotOf(out[i]) != SlotOf(out[j]))
    && (forall i :: 0 <= i < |out| ==> Rank(out[i]) == rank && Lookup(s, SlotOf(out[i])) == Some(out[i]))
    && (forall t: Slot :: t.rank == rank && Lookup(s, t).Some? ==> Mentions(out, t))
  }

  ghost predicate ListsBelow(s: State, n: nat, out: seq<Record>) {
    && Ranked(out)
    && (forall i, j :: 0 <= i < j < |out| ==> SlotOf(out[i]) != SlotOf(out[j]))
    && (forall i :: 0 <= i < |out| ==> Rank(out[i]) < n && Lookup(s, SlotOf(out[i])) == Some(out[i]))
    && (forall t: Slot :: t.rank < n && Lookup(s, t).Some? ==> Mentions(out, t))
  }

  lemma MentionsConcat(front: seq<Record>, back: seq<Record>, t: Slot)
    requires Mentions(front, t) || Mentions(back, t)
    ensures Mentions(front + back, t)
  {
    var out := front + back;
    if Mentions(front, t) {
      var i :| 0 <= i < |front| && SlotOf(front[i]) == t;
      assert SlotOf(out[i]) == t;
    } else {
      var j :| 0 <= j < |back| && SlotOf(back[j]) == t;
      assert SlotOf(out[|front| + j]) == t;
    }
  }

  lemma ListsNext(s: State, n: nat, front: seq<Record>, back: seq<Record>)
    requires ListsBelow(s, n, front) && CollectsAll(s, n, back)
    ensures ListsBelow(s, n + 1, front + back)
  {
    var out := front + back;
    assert forall i :: 0 <= i < |front| ==> out[i] == front[i];
    assert forall j :: 0 <= j < |back| ==> out[|front| + j] == back[j];
    forall t: Slot | t.rank < n + 1 && Lookup(s, t).Some?
      ensures Mentions(out, t)
    {
      MentionsConcat(front, back, t);
    }
  }

  lemma {:induction false} FlatLists(s: State, families: seq<seq<Record>>, n: nat)
    requires n <= |families| && forall r: nat :: r < |families| ==> CollectsAll(s, r, families[r])
    ensures ListsBelow(s, n, Flat(families, n))
  {
    if n > 0 {
      FlatLists(s, families, n - 1);
      ListsNext(s, n - 1, Flat(families, n - 1), families[n - 1]);
    }
  }

  lemma CollectedIsAll(s: State, rank: nat, owners: set<Key>, out: seq<Record>)
    requires Filed(s) && RefsOk(s) && Collects(s, rank, owners, out)
    requires rank == 0 ==> Key(Blank, Blank) in owners
    requires UnderWorkItem(rank) ==> s.workItems.rows.Keys <= owners
    requires rank != 0 && !UnderWorkItem(rank) ==> forall id :: id in s.projects.rows ==> Key(id, Blank) in owners
    ensures CollectsAll(s, rank, out)
  {
    forall t: Slot | t.rank == rank && Lookup(s, t).Some?
      ensures Mentions(out, t)
    {
      OwnersAreVisited(s, t);
    }
  }

  /** Families that each list everything make up a listing of the store. */
  lemma FamiliesList(s: State, families: seq<seq<Record>>)
    requires |families| == FAMILIES && forall r: nat :: r < FAMILIES ==> CollectsAll(s, r, families[r])
    ensures Lists(s, Flat(families, FAMILIES))
  {
    FlatLists(s, families, FAMILIES);
    forall t: Slot | Lookup(s, t).Some?
      ensures t.rank < FAMILIES
    {
    }
  }

  ghost function Visited(projects: seq<Record>, n: nat): set<Key>
    requires n <= |projects|
  {
    set i | 0 <= i < n :: Key(SlotOf(projects[i]).key.project, Blank)
  }

  ghost function VisitedHomes(s: State, projects: seq<Record>, n: nat): set<Key>
    requires n <= |projects|
  {
    set k | k in s.workItems.rows && Key(k.project, Blank) in Visited(projects, n)
  }

  lemma VisitNext(s: State, projects: seq<Record>, n: nat)
    requires n < |projects| && Collects(s, 0, {Key(Blank, Blank)}, projects)
    ensures var p := SlotOf(projects[n]).key.project;
      && Key(p, Blank) !in Visited(projects, n)
      && Visited(projects, n + 1) == Visited(projects, n) + {Key(p, Blank)}
      && VisitedHomes(s, projects, n + 1) == VisitedHomes(s, projects, n) + HomesOf(s, p)
      && (forall k :: k in VisitedHomes(s, projects, n) ==> k.project != p)
  {
  }

  lemma AllVisited(s: State, projects: seq<Record>)
    requires Collects(s, 0, {Key(Blank, Blank)}, projects)
    ensures forall id :: id in s.projects.rows ==> Key(id, Blank) in Visited(projects, |projects|)
  {
    forall id | id in s.projects.rows
      ensures Key(id, Blank) in Visited(projects, |projects|)
    {
      assert Lookup(s, Slot(0, Key(id, Blank))).Some?;
      assert Mentions(projects, Slot(0, Key(id, Blank)));
    }
  }

  /** Families that were not appended to still list what they did. */
  lemma StillCollected(s: State, ranks: seq<nat>, owners: set<Key>, before: seq<seq<Record>>, after: seq<seq<Record>>)
    requires |before| == |after| == FAMILIES && CollectsEach(s, ranks, owners, before)
    requires forall r: nat :: r < FAMILIES && r in ranks ==> after[r] == before[r]
    ensures CollectsEach(s, ranks, owners, after)
  {
  }

  lemma NothingCollected(s: State, projects: seq<Record>, families: seq<seq<Record>>)
    requires families == [projects, [], [], [], [], [], [], [], [], [], []]
    ensures CollectsEach(s, PROJECT_FAMILIES, Visited(projects, 0), families)
    ensures CollectsEach(s, WORK_ITEM_FAMILIES, VisitedHomes(s, projects, 0), families)
  {
  }

  /** `ExportSnapshot`, before the final sort of each family. The export of a store whose
      references to projects and work items resolve lists every record once. */
  method ExportSnapshot(store: MemoryStore) returns (sn: Snapshot)
    requires Filed(store.View()) && RefsOk(store.View())
    ensures sn.version == SNAPSHOT_VERSION && WellTyped(sn)
    ensures Lists(store.View(), Records(sn))
  {
    hide Filing.Filed, Integrity.RefsOk, Collects, CollectsEach, CollectsAll, SnapshotProofs.Lists, Homes, HomesOf,
      Snapshots.Flat;
    var projects := ListProjects(store);
    var families: seq<seq<Record>> := [projects, [], [], [], [], [], [], [], [], [], []];
    NothingCollected(store.View(), projects, families);
    for i := 0 to |projects|
      invariant |families| == FAMILIES && families[0] == projects
      invariant CollectsEach(store.View(), PROJECT_FAMILIES, Visited(projects, i), families)
      invariant CollectsEach(store.View(), WORK_ITEM_FAMILIES, VisitedHomes(store.View(), projects, i), families)
    {
      VisitNext(store.View(), projects, i);
      var p := SlotOf(projects[i]).key.project;
      var planned := Append(store, families, PROJECT_FAMILIES, Key(p, Blank), Visited(projects, i));
      StillCollected(store.View(), WORK_ITEM_FAMILIES, VisitedHomes(store.View(), projects, i), families, planned);
      families := AppendWork(store, planned, p, VisitedHomes(store.View(), projects, i));
      StillCollected(store.View(), PROJECT_FAMILIES, Visited(projects, i + 1), planned, families);
    }
    AllFamilies(store.View(), projects, families);
    FamiliesList(store.View(), families);
    sn := Snapshot(SNAPSHOT_VERSION, families);
  }

  lemma AllFamilies(s: State, projects: seq<Record>, families: seq<seq<Record>>)
    requires Filed(s) && RefsOk(s)
    requires |families| == FAMILIES && families[0] == projects && Collects(s, 0, {Key(Blank, Blank)}, projects)
    requires CollectsEach(s, PROJECT_FAMILIES, Visited(projects, |projects|), families)
    requires CollectsEach(s, WORK_ITEM_FAMILIES, VisitedHomes(s, projects, |projects|), families)
    ensures forall r: nat :: r < FAMILIES ==> CollectsAll(s, r, families[r])
    ensures forall r: nat :: r < FAMILIES ==> OfRank(families[r], r)
  {
    AllVisited(s, projects);
    forall r: nat | r < FAMILIES
      ensures CollectsAll(s, r, families[r]) && OfRank(families[r], r)
    {
      if r == 0 {
        CollectedIsAll(s, r, {Key(Blank, Blank)}, families[r]);
      } else if UnderWorkItem(r) {
        assert r in WORK_ITEM_FAMILIES;
        CollectedIsAll(s, r, VisitedHomes(s, projects, |projects|), families[r]);
      } else {
        assert r in PROJECT_FAMILIES;
        CollectedIsAll(s, r, Visited(projects, |projects|), families[r]);
      }
    }
  }
}
