/** Merging a new snapshot of the workspace into the one a browser shows.  Lists are merged by id; the newer
    of two items with one id stays, whichever snapshot brought it. */
module SnapshotMerge {
  import opened Common

  /** A thread, task, command, event, host session, app-server instance, or a connector's sync (whose id is
      the connector's).  `stamp` is the time its list is merged by; only threads use `lastSeq`; `body` stands
      for everything else. */
  datatype Item = Item(id: Id, lastSeq: nat, stamp: nat, body: nat)

  datatype ListKind = Threads | Stamped | Syncs

  function NewerByStamp(incoming: Item, current: Item): Item {
    if current.stamp > incoming.stamp then current else incoming
  }

  function NewerThread(incoming: Item, current: Item): Item {
    if current.lastSeq > incoming.lastSeq then current
    else if incoming.lastSeq > current.lastSeq then incoming
    else NewerByStamp(incoming, current)
  }

  function Pick(kind: ListKind, incoming: Item, current: Item): Item {
    match kind
    case Threads => NewerThread(incoming, current)
    case Stamped => NewerByStamp(incoming, current)
    case Syncs => if incoming.stamp > current.stamp then incoming else current
  }

  /** Of two items the newer one is shown: threads by sequence number and then time, the others by time; among
      equals the incoming one, but of syncs the current one. */
  lemma PickMeans(kind: ListKind, incoming: Item, current: Item)
    ensures Pick(kind, incoming, current) ==
      match kind
      case Threads =>
        if incoming.lastSeq != current.lastSeq then (if incoming.lastSeq > current.lastSeq then incoming else current)
        else if incoming.stamp >= current.stamp then incoming else current
      case Stamped => if incoming.stamp >= current.stamp then incoming else current
      case Syncs => if current.stamp >= incoming.stamp then current else incoming
  {}

  /** `a` is strictly newer than `b`. */
  predicate Outranks(kind: ListKind, a: Item, b: Item) {
    if kind.Threads? then a.lastSeq > b.lastSeq || (a.lastSeq == b.lastSeq && a.stamp > b.stamp) else a.stamp > b.stamp
  }

  /** The last item of a list with a given id. */
  function Get(s: seq<Item>, id: Id): Option<Item> {
    if s == [] then None else if s[|s| - 1].id == id then Some(s[|s| - 1]) else Get(s[..|s| - 1], id)
  }

  /** Ids are primary keys, so a list from the store has each once. */
  ghost predicate UniqueIds(s: seq<Item>) {
    forall i, j | 0 <= i < j < |s| :: s[i].id != s[j].id
  }

  lemma {:induction false} GetFinds(s: seq<Item>, id: Id)
    ensures Get(s, id).Some? <==> exists k :: 0 <= k < |s| && s[k].id == id
    ensures Get(s, id).Some? ==> Get(s, id).value in s && Get(s, id).value.id == id
    ensures UniqueIds(s) ==> forall k | 0 <= k < |s| && s[k].id == id :: Get(s, id) == Some(s[k])
  {
    if s != [] {
      var rest := s[..|s| - 1];
      GetFinds(rest, id);
      assert forall k | 0 <= k < |rest| :: rest[k] == s[k];
      if Get(s, id).Some? && s[|s| - 1].id != id {
        var k :| 0 <= k < |rest| && rest[k].id == id;
        assert s[k].id == id;
      }
    }
  }

  lemma {:induction false} GetJoins(a: seq<Item>, b: seq<Item>, id: Id)
    ensures Get(a + b, id) == if Get(b, id).Some? then Get(b, id) else Get(a, id)
  {
    if b == [] {
      assert a + b == a;
    } else {
      assert (a + b)[..|a + b| - 1] == a + b[..|b| - 1];
      GetJoins(a, b[..|b| - 1], id);
    }
  }

  // ---------------------------------------------------------------------------------------------
  // Merging two lists

  function MergedItem(kind: ListKind, x: Item, current: seq<Item>): Item {
    if Get(current, x.id).None? then x else Pick(kind, x, Get(current, x.id).value)
  }

  /** Incoming items, each replaced by the current one if that is newer. */
  function Overlaid(kind: ListKind, incoming: seq<Item>, current: seq<Item>): (r: seq<Item>)
    ensures |r| == |incoming|
    ensures forall k | 0 <= k < |r| :: r[k] == MergedItem(kind, incoming[k], current) && r[k].id == incoming[k].id
  {
    forall k | 0 <= k < |incoming|
      ensures MergedItem(kind, incoming[k], current).id == incoming[k].id { GetFinds(current, incoming[k].id); }
    seq(|incoming|, k requires 0 <= k < |incoming| => MergedItem(kind, incoming[k], current))
  }

  /** The items whose ids another list does not have. */
  function Others(s: seq<Item>, than: seq<Item>): seq<Item> {
    if s == [] then []
    else Others(s[..|s| - 1], than) + if Get(than, s[|s| - 1].id).None? then [s[|s| - 1]] else []
  }

  /** The merged list: the incoming items, newest version each, then the current items not among them. */
  function Merged(kind: ListKind, incoming: seq<Item>, current: seq<Item>): seq<Item> {
    Overlaid(kind, incoming, current) + Others(current, incoming)
  }

  lemma {:induction false} OthersGet(s: seq<Item>, than: seq<Item>, id: Id)
    ensures Get(Others(s, than), id) == if Get(than, id).None? then Get(s, id) else None
  {
    if s != [] {
      var last := s[|s| - 1];
      OthersGet(s[..|s| - 1], than, id);
      GetJoins(Others(s[..|s| - 1], than), if Get(than, last.id).None? then [last] else [], id);
      assert [last][..0] == [];
    }
  }

  lemma {:induction false} OverlaidGet(kind: ListKind, incoming: seq<Item>, current: seq<Item>, id: Id)
    ensures Get(Overlaid(kind, incoming, current), id) ==
      if Get(incoming, id).None? then None else Some(MergedItem(kind, Get(incoming, id).value, current))
  {
    if incoming != [] {
      var n := |incoming| - 1;
      assert Overlaid(kind, incoming, current)[..n] == Overlaid(kind, incoming[..n], current);
      OverlaidGet(kind, incoming[..n], current, id);
    }
  }

  /** What the merged list holds for each id. */
  lemma MergedGet(kind: ListKind, incoming: seq<Item>, current: seq<Item>, id: Id)
    ensures Get(Merged(kind, incoming, current), id) ==
      if Get(incoming, id).None? then Get(current, id) else Some(MergedItem(kind, Get(incoming, id).value, current))
  {
    OthersGet(current, incoming, id);
    OverlaidGet(kind, incoming, current, id);
    GetJoins(Overlaid(kind, incoming, current), Others(current, incoming), id);
    if Get(incoming, id).Some? {
      GetFinds(incoming, id);
    }
  }

  lemma {:induction false} OthersAreUnique(s: seq<Item>, than: seq<Item>)
    requires UniqueIds(s)
    ensures UniqueIds(Others(s, than))
  {
    if s != [] {
      var rest := s[..|s| - 1];
      OthersAreUnique(rest, than);
      forall k | 0 <= k < |Others(rest, than)|
        ensures Others(rest, than)[k].id != s[|s| - 1].id
      {
        var id := s[|s| - 1].id;
        OthersGet(rest, than, id);
        GetFinds(Others(rest, than), id);
        GetFinds(rest, id);
      }
    }
  }

  lemma MergedIsUnique(kind: ListKind, incoming: seq<Item>, current: seq<Item>)
    requires UniqueIds(incoming) && UniqueIds(current)
    ensures UniqueIds(Merged(kind, incoming, current))
  {
    OthersAreUnique(current, incoming);
    var others := Others(current, incoming);
    forall i, k | 0 <= i < |incoming| && 0 <= k < |others|
      ensures incoming[i].id != others[k].id
    {
      var id := incoming[i].id;
      OthersGet(current, incoming, id);
      GetFinds(others, id);
      GetFinds(incoming, id);
    }
  }

  /** No id disappears, and no item is replaced by an older one. */
  lemma MergeNeverRollsBack(kind: ListKind, incoming: seq<Item>, current: seq<Item>, id: Id)
    requires Get(current, id).Some?
    ensures var kept := Get(Merged(kind, incoming, current), id);
      && kept.Some? && !Outranks(kind, Get(current, id).value, kept.value)
      && (kind.Threads? ==> kept.value.lastSeq >= Get(current, id).value.lastSeq)
      && (Get(incoming, id).Some? ==> !Outranks(kind, Get(incoming, id).value, kept.value))
  {
    MergedGet(kind, incoming, current, id);
    if Get(incoming, id).Some? {
      GetFinds(incoming, id);
    }
  }

  lemma {:induction false} OthersDropAll(s: seq<Item>, than: seq<Item>)
    requires forall x | x in s :: Get(than, x.id).Some?
    ensures Others(s, than) == []
  {
    if s != [] {
      OthersDropAll(s[..|s| - 1], than);
    }
  }

  lemma {:induction false} OthersJoin(a: seq<Item>, b: seq<Item>, than: seq<Item>)
    ensures Others(a + b, than) == Others(a, than) + Others(b, than)
  {
    if b == [] {
      assert a + b == a;
    } else {
      assert (a + b)[..|a + b| - 1] == a + b[..|b| - 1];
      OthersJoin(a, b[..|b| - 1], than);
    }
  }

  lemma {:induction false} OthersTwice(s: seq<Item>, than: seq<Item>)
    ensures Others(Others(s, than), than) == Others(s, than)
  {
    if s != [] {
      var last := s[|s| - 1];
      OthersTwice(s[..|s| - 1], than);
      OthersJoin(Others(s[..|s| - 1], than), if Get(than, last.id).None? then [last] else [], than);
      assert [last][..0] == [];
    }
  }

  /** Merging the same snapshot again changes nothing, not even the order. */
  lemma MergeAgainIsIdle(kind: ListKind, incoming: seq<Item>, current: seq<Item>)
    requires UniqueIds(incoming) && UniqueIds(current)
    ensures Merged(kind, incoming, Merged(kind, incoming, current)) == Merged(kind, incoming, current)
  {
    var once := Merged(kind, incoming, current);
    var front := Overlaid(kind, incoming, current);
    MergedIsUnique(kind, incoming, current);
    forall k | 0 <= k < |incoming|
      ensures MergedItem(kind, incoming[k], once) == once[k]
    {
      GetFinds(once, incoming[k].id);
      assert once[k] == front[k];
    }
    assert Overlaid(kind, incoming, once) == front;
    forall x | x in front ensures Get(incoming, x.id).Some? {
      var k :| 0 <= k < |front| && front[k] == x;
      GetFinds(incoming, incoming[k].id);
    }
    OthersDropAll(front, incoming);
    OthersJoin(front, Others(current, incoming), incoming);
    OthersTwice(current, incoming);
  }

  // ---------------------------------------------------------------------------------------------
  // Any sequence of snapshots

  /** The list after some snapshots; the first is taken as it is. */
  function AfterAll(kind: ListKind, lists: seq<seq<Item>>): seq<Item> {
    if lists == [] then []
    else if |lists| == 1 then lists[0]
    else Merged(kind, lists[|lists| - 1], AfterAll(kind, lists[..|lists| - 1]))
  }

  ghost predicate InSome(lists: seq<seq<Item>>, x: Item) {
    exists k :: 0 <= k < |lists| && x in lists[k]
  }

  ghost predicate AllUnique(lists: seq<seq<Item>>) {
    forall k | 0 <= k < |lists| :: UniqueIds(lists[k])
  }

  /** What is shown for an id came in some snapshot, and none brought anything newer. */
  ghost predicate Newest(kind: ListKind, lists: seq<seq<Item>>, x: Item) {
    InSome(lists, x) && forall y | InSome(lists, y) && y.id == x.id :: !Outranks(kind, y, x)
  }

  lemma InSomeGrows(lists: seq<seq<Item>>, x: Item)
    requires lists != []
    ensures InSome(lists, x) <==> InSome(lists[..|lists| - 1], x) || x in lists[|lists| - 1]
  {}

  lemma {:induction false} AfterAllHasNewest(kind: ListKind, lists: seq<seq<Item>>, id: Id)
    requires AllUnique(lists)
    ensures UniqueIds(AfterAll(kind, lists))
    ensures Get(AfterAll(kind, lists), id).Some? <==> exists x :: InSome(lists, x) && x.id == id
    ensures Get(AfterAll(kind, lists), id).Some? ==>
      Get(AfterAll(kind, lists), id).value.id == id && Newest(kind, lists, Get(AfterAll(kind, lists), id).value)
    decreases |lists|
  {
    if lists != [] {
      var n := |lists| - 1;
      var last, before := lists[n], AfterAll(kind, lists[..n]);
      GetFinds(last, id);
      forall x ensures InSome(lists, x) <==> InSome(lists[..n], x) || x in last { InSomeGrows(lists, x); }
      AfterAllHasNewest(kind, lists[..n], id);
      if n > 0 {
        MergedIsUnique(kind, last, before);
        MergedGet(kind, last, before, id);
      }
      NewestGrows(kind, lists, id);
    }
  }

  lemma NewestGrows(kind: ListKind, lists: seq<seq<Item>>, id: Id)
    requires AllUnique(lists) && lists != []
    requires var n := |lists| - 1; var before := Get(AfterAll(kind, lists[..n]), id);
      && (before.Some? <==> exists x :: InSome(lists[..n], x) && x.id == id)
      && (before.Some? ==> before.value.id == id && Newest(kind, lists[..n], before.value))
    ensures var after := Get(AfterAll(kind, lists), id);
      && (after.Some? <==> exists x :: InSome(lists, x) && x.id == id)
      && (after.Some? ==> after.value.id == id && Newest(kind, lists, after.value))
  {
    var n := |lists| - 1;
    var last, before := lists[n], AfterAll(kind, lists[..n]);
    GetFinds(last, id);
    MergedGet(kind, last, before, id);
    forall x ensures InSome(lists, x) <==> InSome(lists[..n], x) || x in last { InSomeGrows(lists, x); }
    if n == 0 {
      assert before == [];
    }
    var after := Get(AfterAll(kind, lists), id);
    assert after == if Get(last, id).None? then Get(before, id)
      else Some(MergedItem(kind, Get(last, id).value, before));
    forall y | y in last && y.id == id ensures Get(last, id) == Some(y) {
      var k :| 0 <= k < |last| && last[k] == y;
    }
  }

  lemma {:induction false} AfterAllNeverRollsBack(kind: ListKind, lists: seq<seq<Item>>, k: nat, id: Id)
    requires 0 < k <= |lists| && Get(AfterAll(kind, lists[..k]), id).Some?
    ensures var then_, now := Get(AfterAll(kind, lists[..k]), id), Get(AfterAll(kind, lists), id);
      now.Some? && !Outranks(kind, then_.value, now.value)
    decreases |lists|
  {
    var n := |lists| - 1;
    if k == |lists| {
      assert lists[..k] == lists;
    } else {
      assert lists[..n][..k] == lists[..k];
      AfterAllNeverRollsBack(kind, lists[..n], k, id);
      MergeNeverRollsBack(kind, lists[n], AfterAll(kind, lists[..n]), id);
    }
  }

  /** Two different items of one id never rank the same. */
  ghost predicate NoTies(kind: ListKind, lists: seq<seq<Item>>) {
    forall x, y | InSome(lists, x) && InSome(lists, y) && x.id == y.id && x != y ::
      Outranks(kind, x, y) || Outranks(kind, y, x)
  }

  /** Without ties, what is shown for each id does not depend on the order in which snapshots arrive. */
  lemma ArrivalOrderIsIrrelevant(kind: ListKind, a: seq<seq<Item>>, b: seq<seq<Item>>, id: Id)
    requires AllUnique(a) && AllUnique(b) && NoTies(kind, a)
    requires forall x :: InSome(a, x) <==> InSome(b, x)
    ensures Get(AfterAll(kind, a), id) == Get(AfterAll(kind, b), id)
  {
    AfterAllHasNewest(kind, a, id);
    AfterAllHasNewest(kind, b, id);
  }

  // ---------------------------------------------------------------------------------------------
  // The loops that merge lists

  function Keys(s: seq<Item>): (r: seq<Id>)
    ensures |r| == |s| && forall k | 0 <= k < |r| :: r[k] == s[k].id
  {
    seq(|s|, k requires 0 <= k < |s| => s[k].id)
  }

  /** `order` lists the keys of a JavaScript Map in insertion order. */
  ghost predicate Ordered(order: seq<Id>, items: map<Id, Item>) {
    && (forall id :: id in order <==> id in items)
    && (forall i, j | 0 <= i < j < |order| :: order[i] != order[j])
    && (forall id | id in items :: items[id].id == id)
  }

  ghost predicate Holds(items: map<Id, Item>, s: seq<Item>) {
    forall id :: if id in items then Get(s, id) == Some(items[id]) else Get(s, id).None?
  }

  lemma GetGrows(s: seq<Item>, k: nat, id: Id)
    requires k < |s|
    ensures Get(s[..k + 1], id) == if s[k].id == id then Some(s[k]) else Get(s[..k], id)
  {
    assert s[..k + 1][..k] == s[..k];
  }

  lemma MergedGrows(kind: ListKind, incoming: seq<Item>, current: seq<Item>, k: nat)
    requires k < |current|
    ensures Keys(Merged(kind, incoming, current[..k + 1])) ==
      Keys(Merged(kind, incoming, current[..k])) + if Get(incoming, current[k].id).None? then [current[k].id] else []
  {
    assert current[..k + 1][..k] == current[..k];
  }

  lemma MergedItemGrows(kind: ListKind, incoming: seq<Item>, current: seq<Item>, k: nat, id: Id)
    requires k < |current| && UniqueIds(current)
    ensures var before, after := Get(Merged(kind, incoming, current[..k]), id),
      Get(Merged(kind, incoming, current[..k + 1]), id);
      after == if current[k].id != id then before
               else if before.None? then Some(current[k])
               else Some(Pick(kind, before.value, current[k]))
  {
    GetGrows(current, k, id);
    MergedGet(kind, incoming, current[..k], id);
    MergedGet(kind, incoming, current[..k + 1], id);
    GetFinds(current[..k], id);
    GetFinds(incoming, id);
  }

  lemma SameList(order: seq<Id>, items: map<Id, Item>, s: seq<Item>)
    requires Ordered(order, items) && UniqueIds(s) && Lists(order, items, s)
    ensures forall k | 0 <= k < |order| :: items[order[k]] == s[k]
  {
    forall k | 0 <= k < |order|
      ensures items[order[k]] == s[k]
    {
      GetFinds(s, s[k].id);
    }
  }

  /** Map.set. */
  function Keyed(order: seq<Id>, items: map<Id, Item>, id: Id): seq<Id> {
    if id in items then order else order + [id]
  }

  lemma OrderedGrows(order: seq<Id>, items: map<Id, Item>, x: Item)
    requires Ordered(order, items)
    ensures Ordered(Keyed(order, items, x.id), items[x.id := x])
  {}

  lemma HoldsGrows(items: map<Id, Item>, s: seq<Item>, k: nat)
    requires k < |s| && Holds(items, s[..k])
    ensures Holds(items[s[k].id := s[k]], s[..k + 1])
  {
    forall id { GetGrows(s, k, id); }
  }

  lemma KeysGrow(order: seq<Id>, items: map<Id, Item>, s: seq<Item>, k: nat)
    requires k < |s| && UniqueIds(s) && Holds(items, s[..k]) && order == Keys(s[..k])
    ensures Keyed(order, items, s[k].id) == Keys(s[..k + 1])
  {
    GetFinds(s[..k], s[k].id);
    assert s[..k + 1] == s[..k] + [s[k]];
  }

  method CollectIncoming(incoming: seq<Item>) returns (order: seq<Id>, items: map<Id, Item>)
    ensures Ordered(order, items) && Holds(items, incoming)
    ensures UniqueIds(incoming) ==> order == Keys(incoming)
  {
    order, items := [], map[];
    assert incoming[..0] == [];
    for k := 0 to |incoming|
      invariant Ordered(order, items) && Holds(items, incoming[..k])
      invariant UniqueIds(incoming) ==> order == Keys(incoming[..k])
    {
      var x := incoming[k];
      OrderedGrows(order, items, x);
      HoldsGrows(items, incoming, k);
      if UniqueIds(incoming) {
        KeysGrow(order, items, incoming, k);
      }
      order := Keyed(order, items, x.id);
      items := items[x.id := x];
    }
    assert incoming[..|incoming|] == incoming;
  }

  /** The map has the ids of both lists. */
  ghost predicate HasKeys(items: map<Id, Item>, incoming: seq<Item>, current: seq<Item>) {
    forall id :: id in items <==> Get(incoming, id).Some? || Get(current, id).Some?
  }

  lemma HasKeysGrows(items: map<Id, Item>, incoming: seq<Item>, current: seq<Item>, k: nat, x: Item)
    requires k < |current| && HasKeys(items, incoming, current[..k]) && x.id == current[k].id
    ensures HasKeys(items[x.id := x], incoming, current[..k + 1])
  {
    forall id { GetGrows(current, k, id); }
  }

  lemma PickHasId(kind: ListKind, items: map<Id, Item>, x: Item)
    requires x.id in items ==> items[x.id].id == x.id
    ensures Put(kind, items, x).id == x.id
  {}

  function Put(kind: ListKind, items: map<Id, Item>, x: Item): Item {
    if x.id in items then Pick(kind, items[x.id], x) else x
  }

  /** Merge by id: whatever the lists hold, the result has each of their ids once; lists with unique ids
      give exactly the merged list. */
  method MergeById(kind: ListKind, incoming: seq<Item>, current: seq<Item>) returns (r: seq<Item>)
    ensures UniqueIds(r) && forall id :: Get(r, id).Some? <==> Get(incoming, id).Some? || Get(current, id).Some?
    ensures UniqueIds(incoming) && UniqueIds(current) ==> r == Merged(kind, incoming, current)
  {
    var order: seq<Id>, items: map<Id, Item> := CollectIncoming(incoming);
    MergedWithNone(kind, incoming);
    assert current[..0] == [];
    for k := 0 to |current|
      invariant Ordered(order, items) && HasKeys(items, incoming, current[..k])
      invariant UniqueIds(incoming) && UniqueIds(current) ==> Lists(order, items, Merged(kind, incoming, current[..k]))
    {
      order, items := SetCurrent(kind, incoming, current, k, order, items);
    }
    assert current[..|current|] == current;
    r := seq(|order|, k requires 0 <= k < |order| => items[order[k]]);
    ValuesHaveKeys(order, items, r);
    if UniqueIds(incoming) && UniqueIds(current) {
      MergedIsUnique(kind, incoming, current);
      SameList(order, items, Merged(kind, incoming, current));
    }
  }

  method SetCurrent(kind: ListKind, incoming: seq<Item>, current: seq<Item>, k: nat, order: seq<Id>,
      items: map<Id, Item>)
    returns (order': seq<Id>, items': map<Id, Item>)
    requires k < |current| && Ordered(order, items) && HasKeys(items, incoming, current[..k])
    requires UniqueIds(incoming) && UniqueIds(current) ==> Lists(order, items, Merged(kind, incoming, current[..k]))
    ensures Ordered(order', items') && HasKeys(items', incoming, current[..k + 1])
    ensures UniqueIds(incoming) && UniqueIds(current) ==>
      Lists(order', items', Merged(kind, incoming, current[..k + 1]))
  {
    var x := current[k];
    var picked := if x.id in items then Pick(kind, items[x.id], x) else x;
    PickHasId(kind, items, x);
    OrderedGrows(order, items, picked);
    HasKeysGrows(items, incoming, current, k, picked);
    if UniqueIds(incoming) && UniqueIds(current) {
      ListsGrows(kind, incoming, current, k, order, items);
    }
    order' := Keyed(order, items, x.id);
    items' := items[x.id := picked];
  }

  ghost predicate Lists(order: seq<Id>, items: map<Id, Item>, s: seq<Item>) {
    order == Keys(s) && Holds(items, s)
  }

  lemma ListsGrows(kind: ListKind, incoming: seq<Item>, current: seq<Item>, k: nat, order: seq<Id>,
      items: map<Id, Item>)
    requires k < |current| && UniqueIds(current) && Ordered(order, items)
    requires Lists(order, items, Merged(kind, incoming, current[..k]))
    ensures var x := current[k];
      Lists(Keyed(order, items, x.id), items[x.id := Put(kind, items, x)], Merged(kind, incoming, current[..k + 1]))
  {
    var x := current[k];
    MergedGrows(kind, incoming, current, k);
    forall id { MergedItemGrows(kind, incoming, current, k, id); }
    MergedGet(kind, incoming, current[..k], x.id);
    GetFinds(current[..k], x.id);
  }

  lemma ValuesHaveKeys(order: seq<Id>, items: map<Id, Item>, r: seq<Item>)
    requires Ordered(order, items) && |r| == |order| && forall k | 0 <= k < |r| :: r[k] == items[order[k]]
    ensures UniqueIds(r) && forall id :: Get(r, id).Some? <==> id in items
  {
    forall id ensures Get(r, id).Some? <==> id in items {
      GetFinds(r, id);
      if id in items {
        var k :| 0 <= k < |order| && order[k] == id;
        assert r[k].id == id;
      }
    }
  }

  lemma MergedWithNone(kind: ListKind, incoming: seq<Item>)
    ensures Merged(kind, incoming, []) == incoming
  {}

  lemma MergeSelfIsIdle(kind: ListKind, s: seq<Item>)
    requires UniqueIds(s)
    ensures Merged(kind, s, s) == s
  {
    MergedWithNone(kind, s);
    MergeAgainIsIdle(kind, s, []);
  }

  // ---------------------------------------------------------------------------------------------
  // Whole snapshots

  datatype Connector = Connector(id: Id, updatedAt: Option<nat>, lastSeenAt: Option<nat>, body: nat)

  function ConnectorTime(c: Connector): Option<nat> {
    if c.updatedAt.Some? then c.updatedAt else c.lastSeenAt
  }

  function NewerConnector(incoming: Connector, current: Connector): Connector {
    var i, c := ConnectorTime(incoming), ConnectorTime(current);
    if i.Some? && c.Some? && c.value < i.value then incoming
    else if i.Some? && c.Some? && c.value > i.value then current
    else incoming
  }

  /** The current connector is kept exactly if both have a time and its own is later; the time is that of the
      last update or else of the last contact. */
  lemma NewerConnectorMeans(incoming: Connector, current: Connector)
    ensures
      var at := (c: Connector) =>
        match c.updatedAt case Some(t) => t as int case None => if c.lastSeenAt.Some? then c.lastSeenAt.value else -1;
      NewerConnector(incoming, current) ==
        if at(incoming) >= 0 && at(current) > at(incoming) then current else incoming
  {}

  function GetConnector(s: seq<Connector>, id: Id): Option<Connector> {
    if s == [] then None else if s[|s| - 1].id == id then Some(s[|s| - 1]) else GetConnector(s[..|s| - 1], id)
  }

  function MergedConnector(x: Connector, current: seq<Connector>): Connector {
    var c := GetConnector(current, x.id);
    if c.None? then x else NewerConnector(x, c.value)
  }

  function MergedConnectors(incoming: seq<Connector>, current: seq<Connector>): (r: seq<Connector>)
    ensures |r| == |incoming|
  {
    seq(|incoming|, k requires 0 <= k < |incoming| => MergedConnector(incoming[k], current))
  }

  ghost predicate UniqueConnectors(s: seq<Connector>) {
    forall i, j | 0 <= i < j < |s| :: s[i].id != s[j].id
  }

  lemma {:induction false} GetConnectorFinds(s: seq<Connector>, k: nat)
    requires UniqueConnectors(s) && k < |s|
    ensures GetConnector(s, s[k].id) == Some(s[k])
    decreases |s|
  {
    if k < |s| - 1 {
      GetConnectorFinds(s[..|s| - 1], k);
    }
  }

  lemma {:induction false} GetConnectorHasId(s: seq<Connector>, id: Id)
    ensures GetConnector(s, id).Some? ==> GetConnector(s, id).value.id == id
  {
    if s != [] {
      GetConnectorHasId(s[..|s| - 1], id);
    }
  }

  /** Only incoming connectors are shown, each in its newer version; merging again changes none of them. */
  lemma ConnectorsAgain(incoming: seq<Connector>, current: seq<Connector>)
    requires UniqueConnectors(incoming)
    ensures var once := MergedConnectors(incoming, current);
      UniqueConnectors(once) && MergedConnectors(incoming, once) == once
  {
    var once := MergedConnectors(incoming, current);
    forall k | 0 <= k < |once| ensures once[k].id == incoming[k].id { GetConnectorHasId(current, incoming[k].id); }
    forall k | 0 <= k < |once|
      ensures MergedConnector(incoming[k], once) == once[k]
    {
      GetConnectorFinds(once, k);
    }
  }

  datatype Safety = Safety(generatedAt: nat, body: nat)

  /** All actions allowed. */
  function DefaultSafety(generatedAt: nat): Safety { Safety(generatedAt, 0) }

  /** `rest` stands for what a new snapshot simply replaces.  Instances and safety may be missing from the
      answer of an older control plane. */
  datatype Payload = Payload(
    serverTime: nat,
    rest: nat,
    connectors: seq<Connector>,
    threads: seq<Item>,
    tasks: seq<Item>,
    commands: seq<Item>,
    events: seq<Item>,
    sessions: seq<Item>,
    syncs: seq<Item>,
    instances: Option<seq<Item>>,
    safety: Option<Safety>)

  function InstancesOrEmpty(p: Payload): seq<Item> {
    if p.instances.Some? then p.instances.value else []
  }

  function SafetyOrFallback(p: Payload, generatedAt: nat): Safety {
    if p.safety.Some? then p.safety.value else DefaultSafety(generatedAt)
  }

  function MergeBootstrap(current: Option<Payload>, incoming: Payload): Payload {
    if current.None? then
      incoming.(instances := Some(InstancesOrEmpty(incoming)),
        safety := Some(SafetyOrFallback(incoming, incoming.serverTime)))
    else
      var shown := current.value;
      incoming.(
        connectors := MergedConnectors(incoming.connectors, shown.connectors),
        threads := Merged(Threads, incoming.threads, shown.threads),
        tasks := Merged(Stamped, incoming.tasks, shown.tasks),
        commands := Merged(Stamped, incoming.commands, shown.commands),
        events := Merged(Stamped, incoming.events, shown.events),
        sessions := Merged(Stamped, incoming.sessions, shown.sessions),
        syncs := Merged(Syncs, incoming.syncs, shown.syncs),
        instances := Some(
          if incoming.instances.Some? then Overlaid(Stamped, incoming.instances.value, InstancesOrEmpty(shown))
          else InstancesOrEmpty(shown)),
        safety := Some(if incoming.safety.Some? then incoming.safety.value
          else SafetyOrFallback(shown, incoming.serverTime)))
  }

  /** Whatever a snapshot brings replaces what is shown, but for the merged lists; what an older control plane
      leaves out is kept, or empty, or allowed. */
  lemma BootstrapMeans(current: Option<Payload>, incoming: Payload)
    ensures
      var p := MergeBootstrap(current, incoming);
      && p.serverTime == incoming.serverTime && p.rest == incoming.rest
      && p.safety.Some? && p.instances.Some?
      && p.safety.value ==
           (if incoming.safety.Some? then incoming.safety.value
            else if current.Some? && current.value.safety.Some? then current.value.safety.value
            else Safety(incoming.serverTime, 0))
      && (incoming.instances.None? ==>
            p.instances.value ==
              if current.Some? && current.value.instances.Some? then current.value.instances.value else [])
      && (incoming.instances.Some? ==>
            && |p.instances.value| == |incoming.instances.value|
            && forall k | 0 <= k < |p.instances.value| ::
                 var x := incoming.instances.value[k];
                 var shown := if current.Some? then Get(InstancesOrEmpty(current.value), x.id) else None;
                 p.instances.value[k] == if shown.Some? && shown.value.stamp > x.stamp then shown.value else x)
      && |p.connectors| == |incoming.connectors|
      && forall k | 0 <= k < |p.connectors| ::
           var x := incoming.connectors[k];
           var shown := if current.Some? then GetConnector(current.value.connectors, x.id) else None;
           p.connectors[k] == if shown.Some? then NewerConnector(x, shown.value) else x
  {}

  /** The store's lists have unique ids. */
  ghost predicate UniquePayload(p: Payload) {
    && UniqueConnectors(p.connectors) && UniqueIds(p.threads) && UniqueIds(p.tasks) && UniqueIds(p.commands)
    && UniqueIds(p.events) && UniqueIds(p.sessions) && UniqueIds(p.syncs) && UniqueIds(InstancesOrEmpty(p))
  }

  lemma OverlaidAgain(incoming: seq<Item>, current: seq<Item>)
    requires UniqueIds(incoming)
    ensures Overlaid(Stamped, incoming, Overlaid(Stamped, incoming, current)) == Overlaid(Stamped, incoming, current)
  {
    var once := Overlaid(Stamped, incoming, current);
    forall k | 0 <= k < |incoming|
      ensures MergedItem(Stamped, incoming[k], once) == once[k] { GetFinds(once, once[k].id); }
  }

  lemma OverlaidWithNone(kind: ListKind, incoming: seq<Item>)
    ensures Overlaid(kind, incoming, []) == incoming
  {}

  lemma ConnectorsWithNone(incoming: seq<Connector>)
    ensures MergedConnectors(incoming, []) == incoming
  {}

  lemma MergeKeepsUnique(current: Option<Payload>, incoming: Payload)
    requires UniquePayload(incoming) && (current.Some? ==> UniquePayload(current.value))
    ensures UniquePayload(MergeBootstrap(current, incoming))
  {
    if current.Some? {
      var shown := current.value;
      ConnectorsAgain(incoming.connectors, shown.connectors);
      MergedIsUnique(Threads, incoming.threads, shown.threads);
      MergedIsUnique(Stamped, incoming.tasks, shown.tasks);
      MergedIsUnique(Stamped, incoming.commands, shown.commands);
      MergedIsUnique(Stamped, incoming.events, shown.events);
      MergedIsUnique(Stamped, incoming.sessions, shown.sessions);
      MergedIsUnique(Syncs, incoming.syncs, shown.syncs);
    }
  }

  /** Merging a snapshot again changes nothing at all. */
  lemma RemergeIsIdle(current: Option<Payload>, incoming: Payload)
    requires UniquePayload(incoming) && (current.Some? ==> UniquePayload(current.value))
    ensures var once := MergeBootstrap(current, incoming); MergeBootstrap(Some(once), incoming) == once
  {
    if current.Some? {
      var shown := current.value;
      ConnectorsAgain(incoming.connectors, shown.connectors);
      MergeAgainIsIdle(Threads, incoming.threads, shown.threads);
      MergeAgainIsIdle(Stamped, incoming.tasks, shown.tasks);
      MergeAgainIsIdle(Stamped, incoming.commands, shown.commands);
      MergeAgainIsIdle(Stamped, incoming.events, shown.events);
      MergeAgainIsIdle(Stamped, incoming.sessions, shown.sessions);
      MergeAgainIsIdle(Syncs, incoming.syncs, shown.syncs);
      OverlaidAgain(InstancesOrEmpty(incoming), InstancesOrEmpty(shown));
    } else {
      ConnectorsWithNone(incoming.connectors);
      ConnectorsAgain(incoming.connectors, []);
      MergeSelfIsIdle(Threads, incoming.threads);
      MergeSelfIsIdle(Stamped, incoming.tasks);
      MergeSelfIsIdle(Stamped, incoming.commands);
      MergeSelfIsIdle(Stamped, incoming.events);
      MergeSelfIsIdle(Stamped, incoming.sessions);
      MergeSelfIsIdle(Syncs, incoming.syncs);
      OverlaidWithNone(Stamped, InstancesOrEmpty(incoming));
      OverlaidAgain(InstancesOrEmpty(incoming), []);
    }
  }

  /** What a browser shows after some snapshots. */
  function Shown(payloads: seq<Payload>): Option<Payload> {
    if payloads == [] then None else Some(MergeBootstrap(Shown(payloads[..|payloads| - 1]), payloads[|payloads| - 1]))
  }

  lemma {:induction false} ShownIsUnique(payloads: seq<Payload>)
    requires payloads != [] && forall p | p in payloads :: UniquePayload(p)
    ensures UniquePayload(Shown(payloads).value)
  {
    var n := |payloads| - 1;
    if n > 0 {
      ShownIsUnique(payloads[..n]);
    }
    MergeKeepsUnique(Shown(payloads[..n]), payloads[n]);
  }

  /** The same with any way of merging: what follows does not depend on it. */
  function ShownBy(merge: (Option<Payload>, Payload) -> Payload, payloads: seq<Payload>): Option<Payload> {
    if payloads == [] then None
    else Some(merge(ShownBy(merge, payloads[..|payloads| - 1]), payloads[|payloads| - 1]))
  }

  lemma {:induction false} ShownIsShownBy(payloads: seq<Payload>)
    ensures Shown(payloads) == ShownBy(MergeBootstrap, payloads)
  {
    if payloads != [] {
      ShownIsShownBy(payloads[..|payloads| - 1]);
    }
  }

  lemma ShownThen(merge: (Option<Payload>, Payload) -> Payload, payloads: seq<Payload>, p: Payload)
    ensures ShownBy(merge, payloads + [p]) == Some(merge(ShownBy(merge, payloads), p))
  {
    assert (payloads + [p])[..|payloads|] == payloads;
  }

  lemma ShownTwice(merge: (Option<Payload>, Payload) -> Payload, payloads: seq<Payload>, p: Payload)
    requires var once := merge(ShownBy(merge, payloads), p); merge(Some(once), p) == once
    ensures ShownBy(merge, payloads + [p] + [p]) == ShownBy(merge, payloads + [p])
  {
    ShownThen(merge, payloads, p);
    ShownThen(merge, payloads + [p], p);
  }

  /** After any sequence of snapshots, merging the last one again changes nothing of what is shown. */
  lemma ShowingAgainIsIdle(payloads: seq<Payload>, p: Payload)
    requires UniquePayload(p) && forall q | q in payloads :: UniquePayload(q)
    ensures Shown(payloads + [p, p]) == Shown(payloads + [p])
  {
    if payloads != [] {
      ShownIsUnique(payloads);
    }
    RemergeIsIdle(Shown(payloads), p);
    ShownAgain(payloads, p, Shown(payloads), MergeBootstrap(Shown(payloads), p));
  }

  lemma ShownAgain(payloads: seq<Payload>, p: Payload, before: Option<Payload>, once: Payload)
    requires before == Shown(payloads) && once == MergeBootstrap(before, p) && MergeBootstrap(Some(once), p) == once
    ensures Shown(payloads + [p, p]) == Shown(payloads + [p])
  {
    ShownIsShownBy(payloads);
    ShownIsShownBy(payloads + [p]);
    ShownIsShownBy(payloads + [p] + [p]);
    ShownTwice(MergeBootstrap, payloads, p);
    assert payloads + [p] + [p] == payloads + [p, p];
  }

  /** The lists that are merged by id, with the way each is merged. */
  datatype Field = ThreadList | TaskList | CommandList | EventList | SessionList | SyncList

  function KindOf(f: Field): ListKind {
    match f case ThreadList => Threads case SyncList => Syncs case _ => Stamped
  }

  function ListOf(f: Field, p: Payload): seq<Item> {
    match f
    case ThreadList => p.threads
    case TaskList => p.tasks
    case CommandList => p.commands
    case EventList => p.events
    case SessionList => p.sessions
    case SyncList => p.syncs
  }

  function ListsOf(f: Field, payloads: seq<Payload>): seq<seq<Item>> {
    seq(|payloads|, k requires 0 <= k < |payloads| => ListOf(f, payloads[k]))
  }

  lemma {:induction false} ShownIsAfterAll(f: Field, payloads: seq<Payload>)
    requires payloads != []
    ensures ListOf(f, Shown(payloads).value) == AfterAll(KindOf(f), ListsOf(f, payloads))
  {
    var n := |payloads| - 1;
    if n > 0 {
      ShownIsAfterAll(f, payloads[..n]);
      assert ListsOf(f, payloads)[..n] == ListsOf(f, payloads[..n]);
    }
  }

  /** Over any sequence of snapshots: no id that was ever shown disappears from a merged list, what is shown
      for it is never replaced by something older, and a thread's sequence number never decreases. */
  lemma ShownNeverRollsBack(f: Field, payloads: seq<Payload>, k: nat, id: Id)
    requires 0 < k <= |payloads|
    requires Get(ListOf(f, Shown(payloads[..k]).value), id).Some?
    ensures var then_, now := Get(ListOf(f, Shown(payloads[..k]).value), id), Get(ListOf(f, Shown(payloads).value), id);
      now.Some? && !Outranks(KindOf(f), then_.value, now.value)
        && (f.ThreadList? ==> now.value.lastSeq >= then_.value.lastSeq)
  {
    ShownIsAfterAll(f, payloads);
    ShownIsAfterAll(f, payloads[..k]);
    assert ListsOf(f, payloads)[..k] == ListsOf(f, payloads[..k]);
    AfterAllNeverRollsBack(KindOf(f), ListsOf(f, payloads), k, id);
  }

  /** Two browsers that received the same items, in whatever snapshots and order, show the same for every
      id, unless different items of one id rank the same. */
  lemma ShownIsIndependentOfOrder(f: Field, a: seq<Payload>, b: seq<Payload>, id: Id)
    requires a != [] && b != []
    requires forall p | p in a || p in b :: UniquePayload(p)
    requires NoTies(KindOf(f), ListsOf(f, a))
    requires forall x :: InSome(ListsOf(f, a), x) <==> InSome(ListsOf(f, b), x)
    ensures Get(ListOf(f, Shown(a).value), id) == Get(ListOf(f, Shown(b).value), id)
  {
    ShownIsAfterAll(f, a);
    ShownIsAfterAll(f, b);
    ListsAreUnique(f, a);
    ListsAreUnique(f, b);
    ArrivalOrderIsIrrelevant(KindOf(f), ListsOf(f, a), ListsOf(f, b), id);
  }

  lemma ListsAreUnique(f: Field, payloads: seq<Payload>)
    requires forall p | p in payloads :: UniquePayload(p)
    ensures AllUnique(ListsOf(f, payloads))
  {
    forall k | 0 <= k < |payloads| ensures UniqueIds(ListsOf(f, payloads)[k]) { assert UniquePayload(payloads[k]); }
  }
}
