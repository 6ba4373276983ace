/** Which order a tenant's reserved resources are deleted in, and what can stand in the way. */
module TeardownOrder {
  import opened Common
  import Naming
  import opened Teardown

  // ---------------------------------------------------------------- the order

  datatype Ranked = Ranked(depth: nat, resource: Resource)

  /** Before the first that is not deeper: of equals, the earlier listed comes first. */
  function Insert(x: Ranked, sorted: seq<Ranked>): seq<Ranked> {
    if sorted == [] || sorted[0].depth <= x.depth then [x] + sorted
    else [sorted[0]] + Insert(x, sorted[1..])
  }

  function DeepestFirst(ranked: seq<Ranked>): seq<Ranked> {
    if ranked == [] then [] else Insert(ranked[0], DeepestFirst(ranked[1..]))
  }

  predicate Descending(ranked: seq<Ranked>) {
    forall i, j | 0 <= i < j < |ranked| :: ranked[i].depth >= ranked[j].depth
  }

  lemma {:induction false} InsertKeeps(x: Ranked, sorted: seq<Ranked>)
    ensures multiset(Insert(x, sorted)) == multiset(sorted) + multiset{x}
  {
    if sorted != [] && sorted[0].depth > x.depth {
      InsertKeeps(x, sorted[1..]);
      assert sorted == [sorted[0]] + sorted[1..];
    }
  }

  predicate AllWithin(sorted: seq<Ranked>, depth: nat) { forall i | 0 <= i < |sorted| :: sorted[i].depth <= depth }

  lemma {:induction false} InsertSorts(x: Ranked, sorted: seq<Ranked>, bound: nat)
    requires Descending(sorted) && AllWithin(sorted, bound) && x.depth <= bound
    ensures Descending(Insert(x, sorted)) && AllWithin(Insert(x, sorted), bound)
  {
    if sorted != [] && sorted[0].depth > x.depth {
      InsertSorts(x, sorted[1..], sorted[0].depth);
    }
  }

  /** The sort puts no resource before a deeper one and loses or repeats none. */
  lemma {:induction false} DeepestFirstSorts(ranked: seq<Ranked>)
    ensures Descending(DeepestFirst(ranked)) && multiset(DeepestFirst(ranked)) == multiset(ranked)
  {
    if ranked != [] {
      DeepestFirstSorts(ranked[1..]);
      var rest := DeepestFirst(ranked[1..]);
      InsertKeeps(ranked[0], rest);
      InsertSorts(ranked[0], rest, if rest == [] then ranked[0].depth else ranked[0].depth + rest[0].depth);
      assert ranked == [ranked[0]] + ranked[1..];
    }
  }

  // ---------------------------------------------------------------- what remains

  /** The resources whose id is not gone, in their order. */
  function Left(all: seq<Resource>, gone: set<nat>): seq<Resource> {
    if all == [] then []
    else (if all[0].id in gone then [] else [all[0]]) + Left(all[1..], gone)
  }

  lemma {:induction false} LeftAre(all: seq<Resource>, gone: set<nat>)
    ensures forall r :: r in Left(all, gone) <==> r in all && r.id !in gone
    ensures |Left(all, gone)| <= |all|
  {
    if all != [] {
      LeftAre(all[1..], gone);
    }
  }

  lemma {:induction false} LeftOfLeft(all: seq<Resource>, gone: set<nat>, more: set<nat>)
    ensures Left(Left(all, gone), more) == Left(all, gone + more)
  {
    if all != [] {
      LeftOfLeft(all[1..], gone, more);
      if all[0].id !in gone {
        assert Left(all, gone) == [all[0]] + Left(all[1..], gone);
        assert Left(all, gone)[1..] == Left(all[1..], gone);
      } else {
        assert Left(all, gone) == Left(all[1..], gone);
      }
    }
  }

  predicate Reserved(r: Resource) { Naming.IsSmokeName(r.name) }

  /** Every child of a reserved resource is reserved. */
  predicate Closed(all: seq<Resource>) {
    forall i, j | 0 <= i < |all| && 0 <= j < |all| && all[j].parent == Some(all[i].id) && Reserved(all[i]) ::
      Reserved(all[j])
  }

  ghost function ReservedIds(all: seq<Resource>): set<nat> {
    set r | r in all && Reserved(r) :: r.id
  }

  function HasChild(resources: seq<Resource>, id: nat): bool {
    exists j | 0 <= j < |resources| :: resources[j].parent == Some(id)
  }

  ghost predicate Holds(ranked: seq<Ranked>, r: Resource) {
    exists i | 0 <= i < |ranked| :: ranked[i].resource == r
  }

  /** The reserved resources of `part`, each with its depth in the whole listing. */
  ghost predicate RanksReserved(all: seq<Resource>, part: seq<Resource>, ranked: seq<Ranked>) {
    && (forall x | x in ranked :: x.resource in part && Reserved(x.resource) && IsDepth(all, x.resource, x.depth))
    && (forall r | r in part && Reserved(r) :: Holds(ranked, r))
  }

  /** The reserved resources in deletion order, with the depth each was given. */
  ghost predicate DeletionOrder(all: seq<Resource>, order: seq<Ranked>) {
    Descending(order) && RanksReserved(all, all, order)
  }

  ghost function IdsBefore(order: seq<Ranked>, n: nat): set<nat>
    requires n <= |order|
  {
    set i | 0 <= i < n :: order[i].resource.id
  }

  lemma SameIdSameResource(all: seq<Resource>, a: Resource, b: Resource)
    requires UniqueIds(all) && a in all && b in all && a.id == b.id
    ensures a == b
  {
  }

  /** Deepest first on a forest: whatever is left to delete comes after all of its reserved children. */
  lemma ReservedChildrenGoFirst(all: seq<Resource>, order: seq<Ranked>, n: nat, child: Resource)
    requires Forest(all) && DeletionOrder(all, order) && n < |order|
    requires child in all && Reserved(child) && child.parent == Some(order[n].resource.id)
    ensures child.id in IdsBefore(order, n)
  {
    assert Holds(order, child);
    var j :| 0 <= j < |order| && order[j].resource == child;
    assert order[j] in order && order[n] in order;
    ChildIsOneDeeper(all, child, order[n].resource, order[j].depth, order[n].depth);
  }

  /** On a closed listing nothing hangs under the resource whose turn it is. */
  lemma NoChildIsLeft(all: seq<Resource>, order: seq<Ranked>, n: nat)
    requires Forest(all) && Closed(all) && DeletionOrder(all, order) && n < |order|
    ensures !HasChild(Left(all, IdsBefore(order, n)), order[n].resource.id)
  {
    var left, id := Left(all, IdsBefore(order, n)), order[n].resource.id;
    LeftAre(all, IdsBefore(order, n));
    assert order[n] in order;
    forall j | 0 <= j < |left| ensures left[j].parent != Some(id) {
      var child := left[j];
      assert child in left;
      if child.parent == Some(id) {
        var i :| 0 <= i < |all| && all[i] == order[n].resource;
        var k :| 0 <= k < |all| && all[k] == child;
        ReservedChildrenGoFirst(all, order, n, child);
      }
    }
  }

  /** If nothing was left under it when its turn came, every child of it was reserved. */
  lemma OnlyReservedChildren(all: seq<Resource>, order: seq<Ranked>, n: nat, child: Resource)
    requires UniqueIds(all) && DeletionOrder(all, order) && n < |order|
    requires !HasChild(Left(all, IdsBefore(order, n)), order[n].resource.id)
    requires child in all && child.parent == Some(order[n].resource.id)
    ensures Reserved(child)
  {
    var left := Left(all, IdsBefore(order, n));
    LeftAre(all, IdsBefore(order, n));
    assert child !in left;
    var i :| 0 <= i < n && order[i].resource.id == child.id;
    assert order[i] in order;
    SameIdSameResource(all, child, order[i].resource);
  }

  lemma {:induction false} LeftDependsOnMembers(all: seq<Resource>, a: set<nat>, b: set<nat>)
    requires forall r | r in all :: r.id in a <==> r.id in b
    ensures Left(all, a) == Left(all, b)
  {
    if all != [] {
      LeftDependsOnMembers(all[1..], a, b);
    }
  }

  lemma WholeOrderIsTheReserved(all: seq<Resource>, order: seq<Ranked>)
    requires DeletionOrder(all, order)
    ensures Left(all, IdsBefore(order, |order|)) == Left(all, ReservedIds(all))
  {
    forall r | r in all ensures r.id in IdsBefore(order, |order|) <==> r.id in ReservedIds(all) {
      if r.id in IdsBefore(order, |order|) {
        var i :| 0 <= i < |order| && order[i].resource.id == r.id;
        assert order[i] in order;
      }
      if r.id in ReservedIds(all) {
        var q :| q in all && Reserved(q) && q.id == r.id;
        assert Holds(order, q);
        var i :| 0 <= i < |order| && order[i].resource == q;
      }
    }
    LeftDependsOnMembers(all, IdsBefore(order, |order|), ReservedIds(all));
  }

  lemma RankedOneMore(all: seq<Resource>, n: nat, ranked: seq<Ranked>, depth: nat)
    requires n < |all| && RanksReserved(all, all[..n], ranked)
    requires Reserved(all[n]) && IsDepth(all, all[n], depth)
    ensures RanksReserved(all, all[..n + 1], ranked + [Ranked(depth, all[n])])
  {
    var more := ranked + [Ranked(depth, all[n])];
    assert all[..n + 1] == all[..n] + [all[n]];
    forall r | r in all[..n + 1] && Reserved(r) ensures Holds(more, r) {
      if r in all[..n] {
        assert Holds(ranked, r);
        var i :| 0 <= i < |ranked| && ranked[i].resource == r;
        assert more[i].resource == r;
      } else {
        assert more[|ranked|].resource == r;
      }
    }
  }

  lemma SortedIsADeletionOrder(all: seq<Resource>, ranked: seq<Ranked>)
    requires RanksReserved(all, all, ranked)
    ensures DeletionOrder(all, DeepestFirst(ranked))
  {
    var order := DeepestFirst(ranked);
    DeepestFirstSorts(ranked);
    forall x ensures x in order <==> x in ranked {
      assert x in multiset(order) <==> x in multiset(ranked);
    }
    forall r | r in all && Reserved(r) ensures Holds(order, r) {
      assert Holds(ranked, r);
      var j :| 0 <= j < |ranked| && ranked[j].resource == r;
      assert ranked[j] in order;
    }
  }

  /** The reserved resources of `part` in their order, each with its depth in the whole listing. */
  function Ranking(all: seq<Resource>, part: seq<Resource>): seq<Ranked> {
    if part == [] then []
    else
      var n := |part| - 1;
      Ranking(all, part[..n]) + (if Reserved(part[n]) then [Ranked(Depth(all, part[n].parent, 0), part[n])] else [])
  }

  lemma {:induction false} RankingRanks(all: seq<Resource>, n: nat)
    requires n <= |all|
    ensures RanksReserved(all, all[..n], Ranking(all, all[..n]))
  {
    if n > 0 {
      RankingRanks(all, n - 1);
      assert all[..n][..n - 1] == all[..n - 1] && all[..n] == all[..n - 1] + [all[n - 1]];
      if Reserved(all[n - 1]) {
        DepthFrom(all, all[n - 1], all[n - 1].parent, 0);
        RankedOneMore(all, n - 1, Ranking(all, all[..n - 1]), Depth(all, all[n - 1].parent, 0));
      } else {
        assert Ranking(all, all[..n]) == Ranking(all, all[..n - 1]);
        assert forall r | r in all[..n] && Reserved(r) :: r in all[..n - 1];
      }
    }
  }

  /** The deletion order of a listing. */
  function OrderOf(all: seq<Resource>): seq<Ranked> { DeepestFirst(Ranking(all, all)) }

  lemma OrderOfIsADeletionOrder(all: seq<Resource>)
    ensures DeletionOrder(all, OrderOf(all)) && |OrderOf(all)| == |Ranking(all, all)|
  {
    assert all[..|all|] == all;
    RankingRanks(all, |all|);
    SortedIsADeletionOrder(all, Ranking(all, all));
    DeepestFirstSorts(Ranking(all, all));
    assert |multiset(OrderOf(all))| == |multiset(Ranking(all, all))|;
  }

  ghost predicate ChildrenReserved(all: seq<Resource>, id: nat) {
    forall c | c in all && c.parent == Some(id) :: Reserved(c)
  }

  lemma {:induction false} LeftOfNone(all: seq<Resource>)
    ensures Left(all, {}) == all
  {
    if all != [] {
      LeftOfNone(all[1..]);
    }
  }

  lemma OneMoreGone(all: seq<Resource>, order: seq<Ranked>, n: nat)
    requires n < |order|
    ensures Left(Left(all, IdsBefore(order, n)), {order[n].resource.id}) == Left(all, IdsBefore(order, n + 1))
  {
    LeftOfLeft(all, IdsBefore(order, n), {order[n].resource.id});
    assert IdsBefore(order, n + 1) == IdsBefore(order, n) + {order[n].resource.id};
  }

  lemma NothingGone(all: seq<Resource>, order: seq<Ranked>)
    ensures all == Left(all, IdsBefore(order, 0))
  {
  }

  lemma ChildrenWereReserved(all: seq<Resource>, order: seq<Ranked>, n: nat)
    requires UniqueIds(all) && DeletionOrder(all, order) && n < |order|
    requires !HasChild(Left(all, IdsBefore(order, n)), order[n].resource.id)
    ensures ChildrenReserved(all, order[n].resource.id)
  {
    forall c | c in all && c.parent == Some(order[n].resource.id) ensures Reserved(c) {
      OnlyReservedChildren(all, order, n, c);
    }
  }

  lemma AllDoneIsClosed(all: seq<Resource>, order: seq<Ranked>)
    requires DeletionOrder(all, order) && forall i | 0 <= i < |order| :: ChildrenReserved(all, order[i].resource.id)
    ensures Closed(all)
  {
  }

  lemma {:induction false} RankingIsShorter(all: seq<Resource>, part: seq<Resource>)
    ensures |Ranking(all, part)| <= |part|
  {
    if part != [] {
      RankingIsShorter(all, part[..|part| - 1]);
    }
  }
}
