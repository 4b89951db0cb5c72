/** The order in which the operations brief lists its items: a stable sort by rank, then
    latest first, then by title. */
module OperationsOrder {
  import opened Domain

  datatype Kind = AssignmentItem | EvidenceItem | FollowUpItem | HandoffItem | CandidateItem | ReadyItem | WorkItemItem

  datatype Severity = SeverityBlocked | SeverityActive | SeverityAction | SeverityReady | SeverityInfo

  /** A listed item; `subject` is the record it points at. */
  datatype OperationItem = OperationItem(kind: Kind, severity: Severity, workItemId: Id, subject: Id, updatedAt: Time)

  /** Where the title of an item stands among all titles. Any lexical order embeds in the reals. */
  type TitleOrder = OperationItem -> real

  /** `projectOperationRank`. */
  function Rank(x: OperationItem): nat {
    match x.kind
    case AssignmentItem => if x.severity == SeverityBlocked then 10 else 50
    case EvidenceItem => 20
    case FollowUpItem => 30
    case HandoffItem => 35
    case CandidateItem => 40
    case ReadyItem => 60
    case WorkItemItem => 70
  }

  /** The comparison of the sort. */
  predicate Before(x: OperationItem, y: OperationItem, title: TitleOrder) {
    if Rank(x) != Rank(y) then Rank(x) < Rank(y)
    else if x.updatedAt != y.updatedAt then x.updatedAt > y.updatedAt
    else title(x) < title(y)
  }

  predicate Tied(x: OperationItem, y: OperationItem, title: TitleOrder) {
    !Before(x, y, title) && !Before(y, x, title)
  }

  predicate Ordered(items: seq<OperationItem>, title: TitleOrder) {
    forall i, j :: 0 <= i < j < |items| ==> !Before(items[j], items[i], title)
  }

  /** The items tied with `x`, in order. */
  function Ties(items: seq<OperationItem>, x: OperationItem, title: TitleOrder): (r: seq<OperationItem>)
    ensures forall y :: y in r <==> y in items && Tied(x, y, title)
  {
    if items == [] then [] else (if Tied(x, items[0], title) then [items[0]] else []) + Ties(items[1..], x, title)
  }

  /** Ordered, and nothing overtakes an item it is tied with. */
  ghost predicate Arranges(sorted: seq<OperationItem>, items: seq<OperationItem>, title: TitleOrder) {
    Ordered(sorted, title) && forall x :: Ties(sorted, x, title) == Ties(items, x, title)
  }

  function Insert(x: OperationItem, items: seq<OperationItem>, title: TitleOrder): (r: seq<OperationItem>)
    ensures multiset(r) == multiset{x} + multiset(items)
  {
    if items == [] then [x]
    else if !Before(items[0], x, title) then [x] + items
    else
      assert items == [items[0]] + items[1..];
      [items[0]] + Insert(x, items[1..], title)
  }

  /** `sort.SliceStable`. */
  function Sort(items: seq<OperationItem>, title: TitleOrder): (r: seq<OperationItem>)
    ensures multiset(r) == multiset(items)
  {
    if items == [] then []
    else
      assert items == [items[0]] + items[1..];
      Insert(items[0], Sort(items[1..], title), title)
  }

  lemma BeforeIsWeak(x: OperationItem, y: OperationItem, z: OperationItem, title: TitleOrder)
    ensures !(Before(x, y, title) && Before(y, x, title))
    ensures !Before(x, y, title) && !Before(y, z, title) ==> !Before(x, z, title)
  {
  }

  lemma {:induction false} InsertKeepsOrder(x: OperationItem, items: seq<OperationItem>, title: TitleOrder)
    requires Ordered(items, title)
    ensures Ordered(Insert(x, items, title), title)
  {
    hide Before;
    var r := Insert(x, items, title);
    if items != [] && Before(items[0], x, title) {
      var rest := Insert(x, items[1..], title);
      InsertKeepsOrder(x, items[1..], title);
      forall y | y in rest
        ensures !Before(y, items[0], title)
      {
        assert y in multiset(rest);
        BeforeIsWeak(x, items[0], items[0], title);
      }
    } else {
      forall y | y in items
        ensures !Before(y, x, title)
      {
        BeforeIsWeak(y, items[0], x, title);
        BeforeIsWeak(y, y, y, title);
      }
    }
  }

  lemma TiesCons(x: OperationItem, items: seq<OperationItem>, y: OperationItem, title: TitleOrder)
    ensures Ties([x] + items, y, title) == (if Tied(y, x, title) then [x] else []) + Ties(items, y, title)
  {
    assert ([x] + items)[1..] == items;
  }

  lemma {:induction false} InsertKeepsTies(x: OperationItem, items: seq<OperationItem>, title: TitleOrder,
                                           y: OperationItem)
    ensures Ties(Insert(x, items, title), y, title) == Ties([x] + items, y, title)
  {
    hide Ties, Before, Tied;
    if items != [] && Before(items[0], x, title) {
      var first, rest := items[0], items[1..];
      assert items == [first] + rest;
      InsertKeepsTies(x, rest, title, y);
      NotBothTied(first, x, y, title);
      TiesCons(first, Insert(x, rest, title), y, title);
      TiesCons(x, rest, y, title);
      TiesCons(first, rest, y, title);
      TiesCons(x, items, y, title);
    } else {
      assert Insert(x, items, title) == [x] + items;
    }
  }

  lemma NotBothTied(x1: OperationItem, x2: OperationItem, y: OperationItem, title: TitleOrder)
    requires Before(x1, x2, title)
    ensures !(Tied(y, x1, title) && Tied(y, x2, title))
  {
    hide Before;
    BeforeIsWeak(x1, y, x2, title);
  }

  lemma InsertArranges(x: OperationItem, items: seq<OperationItem>, title: TitleOrder)
    requires Ordered(items, title)
    ensures Arranges(Insert(x, items, title), [x] + items, title)
  {
    InsertKeepsOrder(x, items, title);
    forall y { InsertKeepsTies(x, items, title, y); }
  }

  /** The sort arranges: ordered, every item kept, and tied items in their old order. */
  lemma {:induction false} SortArranges(items: seq<OperationItem>, title: TitleOrder)
    ensures Arranges(Sort(items, title), items, title)
  {
    if items != [] {
      var rest := Sort(items[1..], title);
      SortArranges(items[1..], title);
      InsertArranges(items[0], rest, title);
      forall x
        ensures Ties(Sort(items, title), x, title) == Ties(items, x, title)
      {
        assert ([items[0]] + rest)[1..] == rest;
        assert Ties(Sort(items, title), x, title) == Ties([items[0]] + rest, x, title);
      }
    }
  }

  /** And there is one arrangement only: the brief does not depend on how the sort works. */
  lemma {:induction false} OneArrangement(r1: seq<OperationItem>, r2: seq<OperationItem>, items: seq<OperationItem>,
                                          title: TitleOrder)
    requires Arranges(r1, items, title) && Arranges(r2, items, title)
    ensures r1 == r2
  {
    SameTiesSameOrder(r1, r2, title);
  }

  lemma {:induction false} SameTiesSameOrder(r1: seq<OperationItem>, r2: seq<OperationItem>, title: TitleOrder)
    requires Ordered(r1, title) && Ordered(r2, title)
    requires forall x :: Ties(r1, x, title) == Ties(r2, x, title)
    ensures r1 == r2
  {
    if r1 != [] {
      FirstIsShared(r1, r2, title);
      forall x
        ensures Ties(r1[1..], x, title) == Ties(r2[1..], x, title)
      {
        assert Ties(r1, x, title) == Ties(r2, x, title);
        var head := if Tied(x, r1[0], title) then [r1[0]] else [];
        assert Ties(r1, x, title) == head + Ties(r1[1..], x, title);
        assert Ties(r2, x, title) == head + Ties(r2[1..], x, title);
        assert Ties(r1[1..], x, title) == Ties(r1, x, title)[|head|..];
      }
      SameTiesSameOrder(r1[1..], r2[1..], title);
      assert r1 == [r1[0]] + r1[1..] && r2 == [r2[0]] + r2[1..];
    } else if r2 != [] {
      FirstIsShared(r2, r1, title);
    }
  }

  lemma FirstIsShared(r1: seq<OperationItem>, r2: seq<OperationItem>, title: TitleOrder)
    requires Ordered(r1, title) && Ordered(r2, title) && r1 != []
    requires forall x :: Ties(r1, x, title) == Ties(r2, x, title)
    ensures r2 != [] && r1[0] == r2[0]
  {
    var x := r1[0];
    assert Ties(r1, x, title) == Ties(r2, x, title);
    assert x in Ties(r1, x, title);
    assert x in r2;
    var y := r2[0];
    assert Ties(r1, y, title) == Ties(r2, y, title);
    assert y in Ties(r2, y, title);
    assert y in r1;
    assert Tied(x, y, title);
    assert Ties(r1, x, title)[0] == x && Ties(r2, x, title)[0] == y;
  }

  /** The first item of the arrangement is the next one to attend to: nothing comes before it. */
  lemma NextComesFirst(items: seq<OperationItem>, title: TitleOrder)
    ensures |Sort(items, title)| == |items|
    ensures var sorted := Sort(items, title);
      sorted != [] ==> sorted[0] in items && forall x :: x in items ==> !Before(x, sorted[0], title)
    ensures forall x :: x in Sort(items, title) <==> x in items
  {
    var sorted := Sort(items, title);
    SortArranges(items, title);
    assert |multiset(sorted)| == |sorted| && |multiset(items)| == |items|;
    forall x
      ensures x in sorted <==> x in items
    {
      assert x in multiset(sorted) <==> x in multiset(items);
    }
    if sorted != [] {
      BeforeIsWeak(sorted[0], sorted[0], sorted[0], title);
    }
  }

  // ---------------------------------------------------------------- what comes first

  datatype Concern =
    | BlockedWork | MissingProof | Triage | OpenHandoff | MemoryReview | WorkGoingOn | ReadyToClose | Planning

  function ConcernOf(x: OperationItem): Concern {
    match x.kind
    case AssignmentItem => if x.severity == SeverityBlocked then BlockedWork else WorkGoingOn
    case EvidenceItem => MissingProof
    case FollowUpItem => Triage
    case HandoffItem => OpenHandoff
    case CandidateItem => MemoryReview
    case ReadyItem => ReadyToClose
    case WorkItemItem => Planning
  }

  /** The concerns of an operator, the most urgent first. */
  const URGENCY := [BlockedWork, MissingProof, Triage, OpenHandoff, MemoryReview, WorkGoingOn, ReadyToClose, Planning]

  lemma UrgencyDecides(x: OperationItem, y: OperationItem, title: TitleOrder, i: nat, j: nat)
    requires i < |URGENCY| && j < |URGENCY| && ConcernOf(x) == URGENCY[i] && ConcernOf(y) == URGENCY[j]
    ensures i < j ==> Before(x, y, title)
    ensures i == j ==> (Before(x, y, title) <==>
                          x.updatedAt > y.updatedAt || (x.updatedAt == y.updatedAt && title(x) < title(y)))
  {
  }

  lemma Placed(x: OperationItem) returns (j: nat)
    ensures j < |URGENCY| && ConcernOf(x) == URGENCY[j]
  {
    j := match ConcernOf(x)
      case BlockedWork => 0
      case MissingProof => 1
      case Triage => 2
      case OpenHandoff => 3
      case MemoryReview => 4
      case WorkGoingOn => 5
      case ReadyToClose => 6
      case Planning => 7;
  }

  /** The next item is of the most urgent concern that there is, and the latest of those. */
  lemma NextIsMostUrgent(items: seq<OperationItem>, title: TitleOrder, y: OperationItem, i: nat) returns (j: nat)
    requires y in items && i < |URGENCY| && ConcernOf(y) == URGENCY[i]
    ensures var sorted := Sort(items, title);
      && sorted != [] && sorted[0] in items
      && j <= i && ConcernOf(sorted[0]) == URGENCY[j]
      && (j == i ==> sorted[0].updatedAt >= y.updatedAt)
  {
    NextComesFirst(items, title);
    var x := Sort(items, title)[0];
    j := Placed(x);
    UrgencyDecides(y, x, title, i, j);
    hide Before, Sort, ConcernOf;
  }

  /** A blocked assignment comes first whenever there is one, and the latest of them. */
  lemma BlockedWorkComesNext(items: seq<OperationItem>, title: TitleOrder, y: OperationItem)
    requires y in items && y.kind == AssignmentItem && y.severity == SeverityBlocked
    ensures var sorted := Sort(items, title);
      && sorted != [] && sorted[0].kind == AssignmentItem && sorted[0].severity == SeverityBlocked
      && sorted[0].updatedAt >= y.updatedAt
  {
    hide Before, Sort;
    var j := NextIsMostUrgent(items, title, y, 0);
  }
}
