/** A small tree on which two places share their people (`naming.rs`, `stages/tree.rs`). */
module TwoLobbies {
  import opened Common
  import opened Naming
  import opened Access

  /** Two sites with a lobby of one slug each, and a lamp in the second. */
  const TWO_LOBBIES: Tree := map[
    0 := Node(Portfolio, "", None), 1 := Node(Site, "a", Some(0)), 2 := Node(Site, "b", Some(0)),
    3 := Node(SiteCommon, "lobby", Some(1)), 4 := Node(SiteCommon, "lobby", Some(2)),
    5 := Node(Device, "lamp", Some(4))]

  lemma TheLampIsNotInTheFirstLobby()
    ensures !Covers(TWO_LOBBIES, 3, 5)
  {
    var t := TWO_LOBBIES;
    forall n: nat ensures !Climbs(t, 3, 5, n) {
      if n >= 1 {
        assert Climbs(t, 3, 5, n) == Climbs(t, 3, 4, n - 1);
        if n >= 2 {
          assert Climbs(t, 3, 4, n - 1) == Climbs(t, 3, 2, n - 2);
          assert n >= 3 ==> Climbs(t, 3, 2, n - 2) == Climbs(t, 3, 0, n - 3);
        }
      }
    }
  }

  lemma TheirSlugsAreValid()
    ensures ValidSlug("a") && ValidSlug("b") && ValidSlug("lobby") && ValidSlug("lamp")
  {
  }

  lemma TwoLobbiesAreShaped()
    ensures Shaped(TWO_LOBBIES) && ValidSlugs(TWO_LOBBIES)
  {
    TheirSlugsAreValid();
  }

  lemma TheLampIsInTheSecondLobby()
    ensures Namesakes(TWO_LOBBIES, 3, 4) && Covers(TWO_LOBBIES, 4, 5)
    ensures OperatorRole(TWO_LOBBIES[3].kind).Some?
  {
    var t := TWO_LOBBIES;
    assert Climbs(t, 4, 4, 0) && Climbs(t, 4, 5, 1);
  }

  lemma NamesakesShareTheirOperators(t: Tree, n: nat, m: nat, d: nat)
    requires ValidSlugs(t) && Namesakes(t, n, m) && OperatorRole(t[n].kind).Some? && Covers(t, m, d)
    ensures Operates(t, StructuralBindings(t), {OperatorGroup(t, n)}, d)
  {
    AGroupReachesEveryNamesake(t, n, d);
  }

  /** The sharing by example: the first lobby's operators operate the lamp in the second. */
  lemma LobbiesShareTheirOperators(t: Tree)
    requires t == TWO_LOBBIES
    ensures Shaped(t) && ValidSlugs(t) && !Covers(t, 3, 5)
    ensures 3 in t && OperatorRole(t[3].kind).Some? && Operates(t, StructuralBindings(t), {OperatorGroup(t, 3)}, 5)
  {
    TwoLobbiesAreShaped();
    TheLampIsInTheSecondLobby();
    TheLampIsNotInTheFirstLobby();
    NamesakesShareTheirOperators(t, 3, 4, 5);
  }
}
