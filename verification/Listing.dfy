/** Reading the server's lists (`items` and `find_by` in `crates/domo-common/src/hand_rolled.rs`). */
module Listing {
  import opened Common

  /** A JSON value; an id is a string that parses as a UUID, named here by the number it stands for. */
  datatype Json = JNull | JText(text: string) | JId(id: nat) | JList(elements: seq<Json>)
    | JObject(fields: map<string, Json>)

  function Get(v: Json, field: string): Option<Json> {
    if v.JObject? && field in v.fields then Some(v.fields[field]) else None
  }

  /** The list, bare or under `items`; nothing for any other shape. */
  function Items(v: Json): seq<Json> {
    if Get(v, "items").Some? && Get(v, "items").value.JList? then Get(v, "items").value.elements
    else if v.JList? then v.elements
    else []
  }

  predicate Has(e: Json, field: string, wanted: string) { Get(e, field) == Some(JText(wanted)) }

  function FirstWith(elements: seq<Json>, field: string, wanted: string): (r: Option<Json>)
    ensures r.None? ==> forall k | 0 <= k < |elements| :: !Has(elements[k], field, wanted)
    ensures r.Some? ==> exists k | 0 <= k < |elements| ::
                elements[k] == r.value && Has(r.value, field, wanted) &&
                    forall j | 0 <= j < k :: !Has(elements[j], field, wanted)
  {
    if elements == [] then None
    else if Has(elements[0], field, wanted) then Some(elements[0])
    else
      var r := FirstWith(elements[1..], field, wanted);
      assert forall k | 1 <= k < |elements| :: elements[1..][k - 1] == elements[k];
      assert r.Some? ==> exists k | 0 <= k < |elements| ::
          elements[k] == r.value && Has(r.value, field, wanted) &&
              forall j | 0 <= j < k :: !Has(elements[j], field, wanted) by {
        if r.Some? {
          var k :| 0 <= k < |elements[1..]| && elements[1..][k] == r.value && Has(r.value, field, wanted) &&
            forall j | 0 <= j < k :: !Has(elements[1..][j], field, wanted);
          assert elements[k + 1] == r.value;
        }
      }
      r
  }

  function FindBy(v: Json, field: string, wanted: string): Option<Json> {
    FirstWith(Items(v), field, wanted)
  }

  /** The server's two envelopes. */
  function Envelope(elements: seq<Json>, wrapped: bool): Json {
    if wrapped then JObject(map["items" := JList(elements)]) else JList(elements)
  }

  /** A user as the listing shows it. */
  function Row(name: string, id: nat): Json {
    JObject(map["username" := JText(name), "id" := JId(id)])
  }

  function Rows(names: seq<string>): seq<Json> {
    if names == [] then [] else Rows(names[..|names| - 1]) + [Row(names[|names| - 1], |names| - 1)]
  }

  lemma {:induction false} RowsEach(names: seq<string>)
    ensures |Rows(names)| == |names| && forall k | 0 <= k < |names| :: Rows(names)[k] == Row(names[k], k)
  {
    if names != [] {
      RowsEach(names[..|names| - 1]);
    }
  }

  /** The id of the user with this name, as read back from a listing. */
  function Resolve(listing: Json, name: string): Option<nat> {
    match FindBy(listing, "username", name)
    case None => None
    case Some(row) =>
      match Get(row, "id")
      case Some(JId(id)) => Some(id)
      case _ => None
  }

  lemma RowReadsBack(name: string, id: nat, wanted: string)
    ensures Has(Row(name, id), "username", wanted) <==> name == wanted
    ensures Get(Row(name, id), "id") == Some(JId(id))
  {
  }

  lemma ItemsOfEnvelope(elements: seq<Json>, wrapped: bool)
    ensures Items(Envelope(elements, wrapped)) == elements
  {
  }

  lemma FirstRow(names: seq<string>, name: string)
    ensures FirstWith(Rows(names), "username", name).None? ==> name !in names
    ensures FirstWith(Rows(names), "username", name).Some? ==>
              exists k: nat :: k < |names| && names[k] == name && name !in names[..k] &&
                FirstWith(Rows(names), "username", name).value == Row(name, k)
  {
    RowsEach(names);
    var rows, found := Rows(names), FirstWith(Rows(names), "username", name);
    forall k | 0 <= k < |names| ensures Has(rows[k], "username", name) <==> names[k] == name {
      RowReadsBack(names[k], k, name);
    }
    if found.Some? {
      var k :| 0 <= k < |rows| && rows[k] == found.value && Has(found.value, "username", name) &&
        forall j | 0 <= j < k :: !Has(rows[j], "username", name);
      assert names[k] == name;
    }
  }

  /** In either envelope a user is resolved exactly if listed, and then it is the first of its name. */
  lemma ResolveFindsTheUser(names: seq<string>, wrapped: bool, name: string)
    ensures var r := Resolve(Envelope(Rows(names), wrapped), name);
            && (r.None? <==> name !in names)
            && (r.Some? ==> r.value < |names| && names[r.value] == name && name !in names[..r.value])
  {
    ItemsOfEnvelope(Rows(names), wrapped);
    FirstRow(names, name);
    var found := FirstWith(Rows(names), "username", name);
    if found.Some? {
      var k: nat :| k < |names| && names[k] == name && name !in names[..k] && found.value == Row(name, k);
      RowReadsBack(name, k, name);
    }
  }
}
