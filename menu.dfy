/** The client's menu-item record (components/data.ts). Prices are whole
    rupees. */
module Menu {
  import opened Common

  /** A portion size; `title` is the size's `label` (a reserved word here). */
  datatype Size = Size(title: string, price: int)
  datatype Addon = Addon(name: string, price: int)

  /** `portion` is `type === 'portion'`; `sizes` and `addons` are optional.
      `available` is an older availability key that some items carry
      instead of, or beside, `isAvailable` (components/data.ts:362); the
      guest menu and the inventory list read it. */
  datatype MenuItem = MenuItem(
    id: string,
    name: string,
    description: string,
    price: int,
    category: string,
    image: string,
    spiceLevel: string,
    heroIngredient: string,
    allergens: seq<string>,
    tags: seq<string>,
    prepTime: int,
    calories: int,
    stock: int,
    isAvailable: bool,
    available: Option<bool>,
    dietaryType: string,
    portion: bool,
    sizes: Option<seq<Size>>,
    addons: Option<seq<Addon>>)

  /** The item with the given name, first in list order (`find`). */
  function FindByName(items: seq<MenuItem>, name: string): (r: Option<MenuItem>)
    ensures r.Some? ==> r.value in items && r.value.name == name
    ensures r.Some? ==> exists k :: 0 <= k < |items| && items[k] == r.value
                          && forall j :: 0 <= j < k ==> items[j].name != name
    ensures r.None? ==> forall k :: 0 <= k < |items| ==> items[k].name != name
  {
    if items == [] then None
    else if items[0].name == name then Some(items[0])
    else
      var r := FindByName(items[1..], name);
      assert r.Some? ==> exists k :: 0 <= k < |items| && items[k] == r.value
                           && forall j :: 0 <= j < k ==> items[j].name != name by {
        if r.Some? {
          var k :| 0 <= k < |items[1..]| && items[1..][k] == r.value
                   && forall j :: 0 <= j < k ==> items[1..][j].name != name;
          assert items[k + 1] == r.value;
          assert forall j :: 0 <= j < k + 1 ==> items[j].name != name by {
            forall j | 0 <= j < k + 1 ensures items[j].name != name {
              if j > 0 { assert items[j] == items[1..][j - 1]; }
            }
          }
        }
      }
      r
  }

  // ---------------------------------------------------------------------
  // List operations the menu editors share
  // ---------------------------------------------------------------------

  /** `items.map(m => m.id === id ? { ...m, isAvailable: !m.isAvailable } : m)`. */
  function ToggledAvailability(items: seq<MenuItem>, id: string): (r: seq<MenuItem>)
    ensures |r| == |items|
    ensures forall k :: 0 <= k < |items| ==>
      r[k] == if items[k].id == id then items[k].(isAvailable := !items[k].isAvailable) else items[k]
  {
    seq(|items|, k requires 0 <= k < |items| =>
      if items[k].id == id then items[k].(isAvailable := !items[k].isAvailable) else items[k])
  }

  /** Toggling twice restores the list. */
  lemma ToggleTwice(items: seq<MenuItem>, id: string)
    ensures ToggledAvailability(ToggledAvailability(items, id), id) == items
  {
    var r := ToggledAvailability(ToggledAvailability(items, id), id);
    assert forall k :: 0 <= k < |items| ==> r[k] == items[k];
  }

  /** `items.filter(m => m.id !== id)`. */
  function WithoutId(items: seq<MenuItem>, id: string): seq<MenuItem> {
    Filter(items, (m: MenuItem) => m.id != id)
  }

  /** Removal keeps every other item, in order, and no item with that id;
      removing again changes nothing. */
  lemma WithoutIdSpec(items: seq<MenuItem>, id: string)
    ensures forall m :: m in WithoutId(items, id) <==> m in items && m.id != id
    ensures WithoutId(WithoutId(items, id), id) == WithoutId(items, id)
    ensures (forall k :: 0 <= k < |items| ==> items[k].id != id) ==> WithoutId(items, id) == items
  {
    forall m
      ensures m in WithoutId(items, id) <==> m in items && m.id != id
    {
      FilterMembership(items, (m: MenuItem) => m.id != id, m);
    }
    FilterAll(WithoutId(items, id), (m: MenuItem) => m.id != id);
    if forall k :: 0 <= k < |items| ==> items[k].id != id {
      FilterAll(items, (m: MenuItem) => m.id != id);
    }
  }

  /** `items.map(i => i.id === id ? item : i)`. */
  function ReplacedWhere(items: seq<MenuItem>, id: string, item: MenuItem): (r: seq<MenuItem>)
    ensures |r| == |items|
    ensures forall k :: 0 <= k < |items| ==> r[k] == if items[k].id == id then item else items[k]
  {
    seq(|items|, k requires 0 <= k < |items| => if items[k].id == id then item else items[k])
  }
}
