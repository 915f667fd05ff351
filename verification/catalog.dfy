/** The item catalog the form loads once and then only reads. */
module Catalog {
  import opened Basics

  /** One catalog entry: id, display name, unit of measure and the
      destinations the item may be moved to (a JSON array, hence a sequence). */
  datatype Item = Item(id: int, name: string, unit: string, allowedLocations: seq<string>)

  /** Some entry of the catalog carries this id. */
  predicate HasId(items: seq<Item>, id: int)
  {
    exists i | 0 <= i < |items| :: items[i].id == id
  }

  /** No two entries of the catalog share an id. */
  predicate UniqueIds(items: seq<Item>)
  {
    forall i, j | 0 <= i < j < |items| :: items[i].id != items[j].id
  }

  /** Position of the first entry whose id matches, as a front-to-back scan finds it. */
  function FirstWithId(items: seq<Item>, id: int): (r: Option<nat>)
    ensures r.None? <==> !HasId(items, id)
    ensures r.Some? ==> r.value < |items| && items[r.value].id == id
    ensures r.Some? ==> forall j | 0 <= j < r.value :: items[j].id != id
    decreases |items|
  {
    if |items| == 0 then None
    else if items[0].id == id then Some(0)
    else
      match FirstWithId(items[1..], id)
      case None => None
      case Some(k) => Some(k + 1)
  }

  /** The catalog lookup of the item selector: the first entry with the id.
      The source dereferences the lookup's result, so an unknown id is the
      caller's fault and a precondition here. */
  function Find(items: seq<Item>, id: int): (r: Item)
    requires HasId(items, id)
    ensures r.id == id
    ensures exists k | 0 <= k < |items| :: items[k] == r && forall j | 0 <= j < k :: items[j].id != id
  {
    var k := FirstWithId(items, id).value;
    items[k]
  }

  /** With unique ids the lookup returns the one entry that carries the id. */
  lemma FindUnique(items: seq<Item>, i: int)
    requires UniqueIds(items)
    requires 0 <= i < |items|
    ensures HasId(items, items[i].id)
    ensures Find(items, items[i].id) == items[i]
  {
  }
}
