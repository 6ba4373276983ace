/** Where the nodes of a plan lie, told from the store before any run; and when their groups are free for them. */
module TreePlaces {
  import opened Common
  import opened Tree
  import opened TreeRuns
  import opened TreeScopes

  /** A node of the plan before the run: one the store has, or one still to be made, by its path. */
  datatype Place = Old(id: nat) | Fresh(under: Option<Place>, name: string)

  function PlaceOf(s: Store, under: Option<Place>, name: string): Place {
    if under.Some? && under.value.Fresh? then Fresh(under, name)
    else
      var found := Matches(s.resources, if under.None? then None else Some(under.value.id), name);
      if found == [] then Fresh(under, name) else Old(found[0])
  }

  /** The place of an item's parent, if it has one. */
  function Under(item: Item, places: seq<Place>): Option<Place>
    requires item.under.Some? ==> item.under.value < |places|
  {
    if item.under.None? then None else Some(places[item.under.value])
  }

  /** The places of the given nodes and of the plan's, in order. */
  function Places(s: Store, plan: seq<Item>, given: seq<nat>): (places: seq<Place>)
    requires ValidPlan(plan, |given|)
    ensures |places| == |given| + |plan|
    decreases |plan|
  {
    if plan == [] then seq(|given|, k requires 0 <= k < |given| => Old(given[k]))
    else
      var n := |plan| - 1;
      var before := Places(s, plan[..n], given);
      before + [PlaceOf(s, Under(plan[n], before), plan[n].spec.name)]
  }

  ghost predicate Located(s: Store, plan: seq<Item>, known: nat, places: seq<Place>) {
    && ValidPlan(plan, known) && |places| == known + |plan|
    && forall k | 0 <= k < |plan| :: places[known + k] == PlaceOf(s, Under(plan[k], places), plan[k].spec.name)
  }

  lemma {:induction false} PlacesAreLocated(s: Store, plan: seq<Item>, given: seq<nat>)
    requires ValidPlan(plan, |given|)
    ensures Located(s, plan, |given|, Places(s, plan, given))
    ensures forall j | 0 <= j < |given| :: Places(s, plan, given)[j] == Old(given[j])
    decreases |plan|
  {
    if plan != [] {
      var n := |plan| - 1;
      PlacesAreLocated(s, plan[..n], given);
      var before, places := Places(s, plan[..n], given), Places(s, plan, given);
      forall k | 0 <= k < n ensures Under(plan[k], places) == Under(plan[..n][k], before) {
      }
    }
  }

  /**
   Nothing stands in the way of this item's bindings: wherever its groups hold its roles already, it
   is at this node, and no earlier item of another node takes one of them.
   */
  ghost predicate ItemFree(s: Store, plan: seq<Item>, known: nat, places: seq<Place>, k: nat)
    requires |places| == known + |plan| && k < |plan|
  {
    && (forall b, held | b in s.bindings && held in plan[k].spec.helds && HeldBy(s, b, held) ::
          places[known + k] == Old(b.scope))
    && forall j, held | 0 <= j < k && held in plan[j].spec.helds && held in plan[k].spec.helds ::
        places[known + k] == places[known + j]
  }

  ghost predicate PlanFree(s: Store, plan: seq<Item>, known: nat, places: seq<Place>)
    requires |places| == known + |plan|
  {
    forall k: nat | k < |plan| :: ItemFree(s, plan, known, places, k)
  }

  // ---------------------------------------------------------------- a run against those places

  /** The node found or made for a place that was old or fresh among `n` resources. */
  predicate IsAt(n: nat, id: nat, place: Place) { if place.Old? then id == place.id < n else id >= n }

  /** The nodes taken so far are at their places, one node to a place. */
  ghost predicate Aligned(n: nat, ids: seq<nat>, places: seq<Place>) {
    && |ids| <= |places|
    && (forall p, q | 0 <= p < |ids| && 0 <= q < |ids| :: ids[p] == ids[q] <==> places[p] == places[q])
    && forall q | 0 <= q < |ids| :: IsAt(n, ids[q], places[q])
  }

  ghost predicate Fitted(s: Store, plan: seq<Item>, known: nat, ids: seq<nat>) {
    && ValidPlan(plan, known) && known <= |ids| <= known + |plan|
    && forall k | 0 <= k < |ids| - known :: NodeFits(s, ids[known + k], plan[k].spec.name, ParentId(plan[k], ids))
  }

  /** Scopes and parents refer to what there is. */
  ghost predicate Linked(s: Store) {
    && (forall b | b in s.bindings :: b.scope < |s.resources|)
    && forall r | r in s.resources && r.parent.Some? :: r.parent.value < |s.resources|
  }

  /** The node that fits a place's name under its parent is at the place. */
  lemma FitIsAtPlace(s0: Store, s: Store, under: Option<Place>, parent: Option<nat>, name: string, id: nat)
    requires Sound(s) && Extends(s0, s) && Linked(s0) && NodeFits(s, id, name, parent)
    requires under.None? <==> parent.None?
    requires under.Some? ==> IsAt(|s0.resources|, parent.value, under.value)
    ensures IsAt(|s0.resources|, id, PlaceOf(s0, under, name))
  {
    var found := Matches(s0.resources, parent, name);
    MatchesAreTheFits(s0.resources, parent, name);
    if id < |s0.resources| {
      assert s0.resources[id] in s0.resources && NodeFits(s0, id, name, parent) && id in found;
    }
    if found != [] {
      assert found[0] in found && NodeFits(s, found[0], name, parent);
      OneNodeFits(s, id, found[0], name, parent);
    }
  }

  lemma FreshPlaceIsItsPath(s: Store, under: Option<Place>, name: string)
    ensures PlaceOf(s, under, name).Fresh? ==> PlaceOf(s, under, name) == Fresh(under, name)
  {
  }

  lemma FitsTellNodes(s: Store, i: nat, name: string, parent: Option<nat>, j: nat, name': string, parent': Option<nat>)
    requires NoTwins(s.resources) && NodeFits(s, i, name, parent) && NodeFits(s, j, name', parent')
    ensures i == j <==> name == name' && parent == parent'
  {
    if name == name' && parent == parent' {
      OneNodeFits(s, i, j, name, parent);
    }
  }

  lemma ParentsTellPlaces(n: nat, a: Item, b: Item, ids: seq<nat>, places: seq<Place>)
    requires Aligned(n, ids, places)
    requires (a.under.Some? ==> a.under.value < |ids|) && (b.under.Some? ==> b.under.value < |ids|)
    ensures ParentId(a, ids) == ParentId(b, ids) <==> Under(a, places) == Under(b, places)
  {
  }

  /** Two fresh items are one node exactly if they are one place. */
  lemma FreshPlacesTellNodes(s0: Store, s: Store, ids: seq<nat>, places: seq<Place>, a: Item, i: nat, b: Item, j: nat)
    requires Aligned(|s0.resources|, ids, places) && NoTwins(s.resources)
    requires a.under.Some? ==> a.under.value < |ids|
    requires b.under.Some? ==> b.under.value < |ids|
    requires NodeFits(s, i, a.spec.name, ParentId(a, ids)) && NodeFits(s, j, b.spec.name, ParentId(b, ids))
    ensures var (p, q) := (PlaceOf(s0, Under(a, places), a.spec.name), PlaceOf(s0, Under(b, places), b.spec.name));
            p.Fresh? && q.Fresh? ==> (i == j <==> p == q)
  {
    FreshPlaceIsItsPath(s0, Under(a, places), a.spec.name);
    FreshPlaceIsItsPath(s0, Under(b, places), b.spec.name);
    FitsTellNodes(s, i, a.spec.name, ParentId(a, ids), j, b.spec.name, ParentId(b, ids));
    ParentsTellPlaces(|s0.resources|, a, b, ids, places);
  }

  lemma FittedLater(s: Store, s': Store, plan: seq<Item>, known: nat, ids: seq<nat>, ids': seq<nat>)
    requires Fitted(s, plan, known, ids) && Extends(s, s') && ids <= ids'
    ensures forall k | 0 <= k < |ids| - known ::
              NodeFits(s', ids'[known + k], plan[k].spec.name, ParentId(plan[k], ids'))
  {
    forall k | 0 <= k < |ids| - known ensures ParentId(plan[k], ids') == ParentId(plan[k], ids) {
    }
  }

  /** The next node taken is at the next place. */
  lemma NextIsAligned(s0: Store, s: Store, plan: seq<Item>, known: nat, places: seq<Place>, ids: seq<nat>, id: nat)
    requires Located(s0, plan, known, places) && Fitted(s, plan, known, ids) && |ids| < known + |plan|
    requires Aligned(|s0.resources|, ids, places) && (forall j | 0 <= j < known :: places[j].Old?)
    requires Sound(s) && Extends(s0, s) && Linked(s0)
    requires NodeFits(s, id, plan[|ids| - known].spec.name, ParentId(plan[|ids| - known], ids))
    ensures Aligned(|s0.resources|, ids + [id], places) && Fitted(s, plan, known, ids + [id])
  {
    var k, place, ids' := |ids| - known, places[|ids|], ids + [id];
    assert place == places[known + k];
    FitIsAtPlace(s0, s, Under(plan[k], places), ParentId(plan[k], ids), plan[k].spec.name, id);
    forall q | 0 <= q < |ids| ensures ids[q] == id <==> places[q] == place {
      if place.Fresh? && places[q].Fresh? {
        assert places[q] == places[known + (q - known)] && ids[q] == ids[known + (q - known)];
        FreshPlacesTellNodes(s0, s, ids, places, plan[q - known], ids[q], plan[k], id);
      }
    }
    FittedLater(s, s, plan, known, ids, ids');
    assert ParentId(plan[k], ids') == ParentId(plan[k], ids);
  }
}
