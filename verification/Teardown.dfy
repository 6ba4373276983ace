/** The fixture teardown (`stages/smoke/teardown.rs`): depth by a bounded parent walk, deepest first. */
module Teardown {
  import opened Common

  datatype Resource = Resource(id: nat, name: string, parent: Option<nat>)

  // ---------------------------------------------------------------- the parent walk

  /** The parent of the first resource listed under this id; none if it is not listed. */
  function ParentOf(all: seq<Resource>, id: nat): Option<nat> {
    if all == [] then None else if all[0].id == id then all[0].parent else ParentOf(all[1..], id)
  }

  /** Following parents from `cursor` ends after exactly `n` steps. */
  predicate Ends(all: seq<Resource>, cursor: Option<nat>, n: nat)
    decreases n
  {
    if n == 0 then cursor.None? else cursor.Some? && Ends(all, ParentOf(all, cursor.value), n - 1)
  }

  /** The number of parents, or one more than the listing is long where the walk is cut off. */
  ghost predicate IsDepth(all: seq<Resource>, r: Resource, depth: nat) {
    || (Ends(all, r.parent, depth) && depth <= |all|)
    || (depth == |all| + 1 && forall n | 0 <= n <= |all| :: !Ends(all, r.parent, n))
  }

  function Follow(all: seq<Resource>, cursor: Option<nat>, n: nat): Option<nat>
    decreases n
  {
    if n == 0 || cursor.None? then cursor else Follow(all, ParentOf(all, cursor.value), n - 1)
  }

  lemma {:induction false} FollowToTheEnd(all: seq<Resource>, cursor: Option<nat>, n: nat)
    ensures Ends(all, cursor, n) <==> Follow(all, cursor, n).None? && (n > 0 ==> Follow(all, cursor, n - 1).Some?)
    decreases n
  {
    if n > 0 && cursor.Some? {
      FollowToTheEnd(all, ParentOf(all, cursor.value), n - 1);
    }
  }

  lemma {:induction false} FollowOneMore(all: seq<Resource>, cursor: Option<nat>, n: nat)
    requires Follow(all, cursor, n).Some?
    ensures Follow(all, cursor, n + 1) == ParentOf(all, Follow(all, cursor, n).value)
    decreases n
  {
    if n > 0 {
      FollowOneMore(all, ParentOf(all, cursor.value), n - 1);
    }
  }

  lemma {:induction false} DepthIsUnique(all: seq<Resource>, cursor: Option<nat>, n: nat, m: nat)
    requires Ends(all, cursor, n) && Ends(all, cursor, m)
    ensures n == m
    decreases n
  {
    if n > 0 && m > 0 {
      DepthIsUnique(all, ParentOf(all, cursor.value), n - 1, m - 1);
    }
  }

  lemma {:induction false} Settled(all: seq<Resource>, cursor: Option<nat>, n: nat, m: nat)
    requires n <= m && Follow(all, cursor, n).None?
    ensures Follow(all, cursor, m).None?
    decreases n
  {
    if n > 0 && cursor.Some? {
      Settled(all, ParentOf(all, cursor.value), n - 1, m - 1);
    }
  }

  /** The walk itself: how far it has come, and from where it goes on. */
  function Depth(all: seq<Resource>, cursor: Option<nat>, steps: nat): nat
    requires steps <= |all|
    decreases |all| - steps
  {
    if cursor.None? then steps
    else if steps == |all| then steps + 1
    else Depth(all, ParentOf(all, cursor.value), steps + 1)
  }

  lemma {:induction false} DepthFrom(all: seq<Resource>, r: Resource, cursor: Option<nat>, steps: nat)
    requires steps <= |all| && cursor == Follow(all, r.parent, steps)
    requires forall n: nat | n < steps :: Follow(all, r.parent, n).Some?
    ensures IsDepth(all, r, Depth(all, cursor, steps))
    decreases |all| - steps
  {
    if cursor.Some? && steps < |all| {
      FollowOneMore(all, r.parent, steps);
      DepthFrom(all, r, ParentOf(all, cursor.value), steps + 1);
    } else {
      forall n: nat | n <= |all| ensures Ends(all, r.parent, n) <==> cursor.None? && n == steps {
        FollowToTheEnd(all, r.parent, n);
        if n > steps {
          Settled(all, r.parent, steps, n - 1);
        }
      }
    }
  }

  /** Ends on every listing, cyclic ones included, within one step more than the listing is long. */
  method DepthOf(resource: Resource, all: seq<Resource>) returns (depth: nat)
    ensures depth == Depth(all, resource.parent, 0) && IsDepth(all, resource, depth)
  {
    DepthFrom(all, resource, resource.parent, 0);
    depth := 0;
    var cursor := resource.parent;
    while cursor.Some?
      invariant depth <= |all|
      invariant Depth(all, cursor, depth) == Depth(all, resource.parent, 0)
      decreases |all| - depth
    {
      depth := depth + 1;
      if depth > |all| {
        break;
      }
      cursor := ParentOf(all, cursor.value);
    }
  }

  // ---------------------------------------------------------------- forests

  ghost predicate UniqueIds(all: seq<Resource>) {
    forall i, j | 0 <= i < j < |all| :: all[i].id != all[j].id
  }

  ghost predicate Rooted(all: seq<Resource>, r: Resource) { exists n: nat :: Ends(all, r.parent, n) }

  /** Ids are unique and every chain of parents ends: the listing of a forest. */
  ghost predicate Forest(all: seq<Resource>) {
    UniqueIds(all) && forall r | r in all :: Rooted(all, r)
  }

  ghost function IdsOf(rs: seq<Resource>): set<nat> { set r | r in rs :: r.id }

  lemma {:induction false} FewIds(rs: seq<Resource>)
    ensures |IdsOf(rs)| <= |rs|
  {
    if rs == [] {
      assert IdsOf(rs) == {};
    } else {
      FewIds(rs[1..]);
      assert IdsOf(rs) == {rs[0].id} + IdsOf(rs[1..]);
    }
  }

  lemma {:induction false} ListedParent(all: seq<Resource>, r: Resource)
    requires UniqueIds(all) && r in all
    ensures ParentOf(all, r.id) == r.parent
  {
    if all[0] != r {
      assert r in all[1..];
      ListedParent(all[1..], r);
      var k :| 0 <= k < |all| && all[k] == r;
    }
  }

  lemma {:induction false} UnlistedHasNoParent(all: seq<Resource>, id: nat)
    ensures ParentOf(all, id).Some? ==> id in IdsOf(all)
  {
    if all != [] && all[0].id != id {
      UnlistedHasNoParent(all[1..], id);
      assert IdsOf(all) == {all[0].id} + IdsOf(all[1..]);
    }
  }

  ghost predicate EndsWithin(all: seq<Resource>, id: nat, m: nat) {
    exists k: nat :: k <= m && Ends(all, Some(id), k)
  }

  /** A chain of `m` steps passes `m - 1` different listed resources. */
  lemma {:induction false} Passed(all: seq<Resource>, cursor: Option<nat>, m: nat) returns (trail: set<nat>)
    requires m > 0 && Ends(all, cursor, m)
    ensures |trail| == m - 1 && trail <= IdsOf(all)
    ensures forall x | x in trail :: EndsWithin(all, x, m)
    decreases m
  {
    if m == 1 {
      trail := {};
    } else {
      var rest := Passed(all, ParentOf(all, cursor.value), m - 1);
      UnlistedHasNoParent(all, cursor.value);
      if cursor.value in rest {
        var k: nat :| k <= m - 1 && Ends(all, Some(cursor.value), k);
        DepthIsUnique(all, cursor, k, m);
      }
      trail := {cursor.value} + rest;
      assert EndsWithin(all, cursor.value, m);
      forall x | x in rest ensures EndsWithin(all, x, m) {
        var k: nat :| k <= m - 1 && Ends(all, Some(x), k);
      }
    }
  }

  /** On a forest the walk is never cut off. */
  lemma CutOffNeverFires(all: seq<Resource>, r: Resource, depth: nat)
    requires Forest(all) && r in all && IsDepth(all, r, depth)
    ensures depth <= |all| && Ends(all, r.parent, depth)
  {
    assert Rooted(all, r);
    var n: nat :| Ends(all, r.parent, n);
    ListedParent(all, r);
    var trail := Passed(all, Some(r.id), n + 1);
    FewIds(all);
    SubsetIsSmaller(trail, IdsOf(all));
    if depth <= |all| {
      DepthIsUnique(all, r.parent, n, depth);
    }
  }

  /** On a forest a child is exactly one deeper than its listed parent. */
  lemma ChildIsOneDeeper(all: seq<Resource>, child: Resource, parent: Resource, c: nat, p: nat)
    requires Forest(all) && child in all && parent in all && child.parent == Some(parent.id)
    requires IsDepth(all, child, c) && IsDepth(all, parent, p)
    ensures c == p + 1
  {
    CutOffNeverFires(all, child, c);
    CutOffNeverFires(all, parent, p);
    ListedParent(all, parent);
    DepthIsUnique(all, child.parent, c, p + 1);
  }
}
