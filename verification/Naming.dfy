/**
 The resource and group naming scheme (`tools/domo-bootstrap/src/naming.rs`) and the two readers
 that recognise a reserved fixture name (`stages/smoke/teardown.rs`).
 */
module Naming {
  import opened Common
  import opened Text
  import Topic

  datatype Kind = Portfolio | Site | SiteCommon | Building | BuildingCommon | Apartment | Device

  datatype NameError = EmptySlug | DotInSlug | ColonInSlug | OtherCharInSlug | NoRoleName

  function ResourceType(kind: Kind): string {
    match kind
    case Portfolio => "portfolio"
    case Site => "site"
    case SiteCommon => "common"
    case BuildingCommon => "common"
    case Building => "building"
    case Apartment => "apartment"
    case Device => "device"
  }

  function Prefix(kind: Kind): string {
    match kind
    case Portfolio => "portfolio"
    case Site => "site"
    case SiteCommon => "common:site"
    case Building => "building"
    case BuildingCommon => "common:building"
    case Apartment => "apartment"
    case Device => "device"
  }

  predicate SlugChar(c: char) { 'a' <= c <= 'z' || '0' <= c <= '9' || c == '-' }

  predicate ValidSlug(slug: string) {
    slug != "" && forall i | 0 <= i < |slug| :: SlugChar(slug[i])
  }

  /** Refuses in this order: empty, a dot, a colon, anything else outside the accepted class. */
  function ValidateSlug(slug: string): (r: Result<(), NameError>)
    ensures r.Ok? <==> ValidSlug(slug)
    ensures r == Err(DotInSlug) <==> '.' in slug
    ensures r == Err(ColonInSlug) <==> ':' in slug && '.' !in slug
  {
    if slug == "" then Err(EmptySlug)
    else if '.' in slug then Err(DotInSlug)
    else if ':' in slug then Err(ColonInSlug)
    else if exists i | 0 <= i < |slug| :: !SlugChar(slug[i]) then Err(OtherCharInSlug)
    else Ok(())
  }

  function ResourceName(kind: Kind, slug: string): Result<string, NameError> {
    if kind.Portfolio? then Ok(Prefix(kind))
    else
      match ValidateSlug(slug)
      case Err(e) => Err(e)
      case Ok(_) => Ok(Prefix(kind) + ":" + slug)
  }

  function ApartmentSlug(building: string, unit: string): Result<string, NameError> {
    match ValidateSlug(building)
    case Err(e) => Err(e)
    case Ok(_) =>
      match ValidateSlug(unit)
      case Err(e) => Err(e)
      case Ok(_) => Ok(building + "-" + unit)
  }

  predicate IsBlank(s: string) {
    forall i | 0 <= i < |s| ::
      '\U{09}' <= s[i] <= '\U{0D}' || s[i] in {'\U{20}', '\U{85}', '\U{A0}', '\U{1680}', '\U{2028}', '\U{2029}',
                                              '\U{202F}', '\U{205F}', '\U{3000}'}
      || '\U{2000}' <= s[i] <= '\U{200A}'
  }

  function GroupName(role: string, kind: Kind, slug: string): Result<string, NameError> {
    if IsBlank(role) then Err(NoRoleName)
    else
      match ValidateSlug(role)
      case Err(e) => Err(e)
      case Ok(_) =>
        match ResourceName(kind, slug)
        case Err(e) => Err(e)
        case Ok(name) => Ok(role + "@" + name)
  }

  /** The roles whose groups are created together with a resource of this kind. */
  function StructuralGroupsFor(kind: Kind): seq<string> {
    match kind
    case Portfolio => ["property-manager"]
    case Site => ["installer", "concierge"]
    case SiteCommon => ["common-operator", "common-device-manager"]
    case BuildingCommon => ["common-operator", "common-device-manager"]
    case Apartment => ["resident"]
    case Building => []
    case Device => []
  }

  // ---------------------------------------------------------------- injectivity

  lemma SlugsCarryNoSeparator(slug: string)
    requires ValidSlug(slug)
    ensures ':' !in slug && '@' !in slug && Topic.PlainSegment(slug) && !IsBlank(slug)
  {
    assert forall c | c in slug :: SlugChar(c);
    assert SlugChar(slug[0]);
  }

  lemma PrefixesAreDistinct(k1: Kind, k2: Kind)
    requires Prefix(k1) == Prefix(k2)
    ensures k1 == k2
  {
  }

  lemma NameHasColon(kind: Kind, slug: string)
    requires ResourceName(kind, slug).Ok?
    ensures ':' in ResourceName(kind, slug).value <==> kind != Portfolio
  {
  }

  lemma ResourceNamesAreInjective(k1: Kind, s1: string, k2: Kind, s2: string)
    requires ResourceName(k1, s1).Ok? && ResourceName(k1, s1) == ResourceName(k2, s2)
    ensures k1 == k2 && (k1 == Portfolio || s1 == s2)
  {
    NameHasColon(k1, s1);
    NameHasColon(k2, s2);
    if k1 != Portfolio {
      SlugsCarryNoSeparator(s1);
      SlugsCarryNoSeparator(s2);
      CutAtLastUnique(Prefix(k1), s1, Prefix(k2), s2, ':');
      PrefixesAreDistinct(k1, k2);
    }
  }

  /** A group name determines its role, its kind and, where the kind takes one, its slug. */
  lemma GroupNamesAreInjective(r1: string, k1: Kind, s1: string, r2: string, k2: Kind, s2: string)
    requires GroupName(r1, k1, s1).Ok? && GroupName(r1, k1, s1) == GroupName(r2, k2, s2)
    ensures r1 == r2 && k1 == k2 && (k1 == Portfolio || s1 == s2)
  {
    SlugsCarryNoSeparator(r1);
    SlugsCarryNoSeparator(r2);
    CutAtFirstUnique(r1, ResourceName(k1, s1).value, r2, ResourceName(k2, s2).value, '@');
    ResourceNamesAreInjective(k1, s1, k2, s2);
  }

  /**
   When two apartments get the same slug: they are the same, or one building's name extends the
   other's by a hyphen and a word that the other's unit starts with.
   */
  ghost predicate Collide(b1: string, u1: string, b2: string, u2: string) {
    exists w: string :: b2 == b1 + "-" + w && u1 == w + "-" + u2
  }

  lemma CollisionSplit(b1: string, u1: string, b2: string, u2: string)
    requires |b1| <= |b2| && b1 + "-" + u1 == b2 + "-" + u2
    ensures (b1 == b2 && u1 == u2) || Collide(b1, u1, b2, u2)
  {
    var all := b1 + "-" + u1;
    assert all[..|b1|] == b1 && all[..|b2|] == b2;
    if |b1| == |b2| {
      assert all[|b1| + 1..] == u1 && all[|b2| + 1..] == u2;
    } else {
      assert all[|b1|] == '-' && b2[|b1|] == '-';
      var w := b2[|b1| + 1..];
      assert b2 == b1 + "-" + w;
      assert all[|b1| + 1..] == u1 && all[|b1| + 1..] == w + "-" + u2;
    }
  }

  lemma ApartmentSlugsCollideExactly(b1: string, u1: string, b2: string, u2: string)
    requires ValidSlug(b1) && ValidSlug(u1) && ValidSlug(b2) && ValidSlug(u2)
    ensures ApartmentSlug(b1, u1) == ApartmentSlug(b2, u2) <==>
            (b1 == b2 && u1 == u2) || Collide(b1, u1, b2, u2) || Collide(b2, u2, b1, u1)
  {
    if ApartmentSlug(b1, u1) == ApartmentSlug(b2, u2) {
      if |b1| <= |b2| {
        CollisionSplit(b1, u1, b2, u2);
      } else {
        CollisionSplit(b2, u2, b1, u1);
      }
    }
    if Collide(b1, u1, b2, u2) {
      var w: string :| b2 == b1 + "-" + w && u1 == w + "-" + u2;
      assert b1 + "-" + (w + "-" + u2) == (b1 + "-" + w) + "-" + u2;
    }
    if Collide(b2, u2, b1, u1) {
      var w: string :| b1 == b2 + "-" + w && u2 == w + "-" + u1;
      assert b2 + "-" + (w + "-" + u1) == (b2 + "-" + w) + "-" + u1;
    }
  }

  /** Units without a hyphen (or one fixed unit) are what make the composed slug injective. */
  lemma ApartmentSlugIsInjectiveWhere(b1: string, u1: string, b2: string, u2: string)
    requires ApartmentSlug(b1, u1).Ok? && ApartmentSlug(b1, u1) == ApartmentSlug(b2, u2)
    requires u1 == u2 || ('-' !in u1 && '-' !in u2)
    ensures b1 == b2 && u1 == u2
  {
    ApartmentSlugsCollideExactly(b1, u1, b2, u2);
  }

  /** Without that it is not: tower `a-b` unit `c` and tower `a` unit `b-c` share a slug. */
  lemma ApartmentSlugsCanCollide()
    ensures ApartmentSlug("a-b", "c") == ApartmentSlug("a", "b-c") == Ok("a-b-c")
  {
    var ab, c, a, bc := "a-b", "c", "a", "b-c";
    assert ValidSlug(ab) && ValidSlug(c) && ValidSlug(a) && ValidSlug(bc);
    assert ab + "-" + c == "a-b-c" && a + "-" + bc == "a-b-c";
  }

  // ---------------------------------------------------------------- the reserved prefix

  const SMOKE_PREFIX := "smoke-"

  predicate IsSmokeName(name: string) {
    StartsWith(AfterLast(name, ':'), SMOKE_PREFIX)
  }

  predicate IsSmokeGroup(name: string) {
    match AfterFirst(name, '@')
    case None => false
    case Some(resource) => IsSmokeName(resource)
  }

  /** Of generated names, the reader recognises exactly those with a reserved slug. */
  lemma SmokeNamesAreReadBack(kind: Kind, slug: string)
    requires ResourceName(kind, slug).Ok?
    ensures IsSmokeName(ResourceName(kind, slug).value) <==> kind != Portfolio && StartsWith(slug, SMOKE_PREFIX)
  {
    NameHasColon(kind, slug);
    if kind == Portfolio {
      var name := ResourceName(kind, slug).value;
      AfterLastWhole(name, ':');
      assert name[0] == 'p' && SMOKE_PREFIX[0] == 's';
      assert |name| >= 6 && name[..6][0] == name[0];
    } else {
      SlugsCarryNoSeparator(slug);
      AfterLastOf(Prefix(kind), slug, ':');
    }
  }

  lemma SmokeGroupsAreReadBack(role: string, kind: Kind, slug: string)
    requires GroupName(role, kind, slug).Ok?
    ensures IsSmokeGroup(GroupName(role, kind, slug).value) <==> kind != Portfolio && StartsWith(slug, SMOKE_PREFIX)
  {
    SlugsCarryNoSeparator(role);
    AfterFirstOf(role, ResourceName(kind, slug).value, '@');
    SmokeNamesAreReadBack(kind, slug);
  }

  /** An apartment's slug is reserved exactly when its building is `smoke` or is itself reserved. */
  lemma ReservedApartments(building: string, unit: string)
    requires ApartmentSlug(building, unit).Ok?
    ensures StartsWith(ApartmentSlug(building, unit).value, SMOKE_PREFIX) <==>
            building == "smoke" || StartsWith(building, SMOKE_PREFIX)
  {
    var slug := building + "-" + unit;
    if |building| < 5 {
      assert slug[|building|] == '-' != SMOKE_PREFIX[|building|];
      if |slug| >= 6 {
        assert slug[..6][|building|] == '-';
      }
    } else if |building| == 5 {
      assert slug[..5] == building && SMOKE_PREFIX[..5] == "smoke";
      assert slug[..6] == building + "-";
    } else {
      assert slug[..6] == building[..6];
    }
  }
}
