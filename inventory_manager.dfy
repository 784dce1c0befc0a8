/** The owner's inventory screen (components/InventoryManager.tsx): a search
    box and category chips over the menu it is given, and handlers that
    build a new list and hand it to `onUpdateItems`. Each handler is a
    function returning that list (or `None` when nothing is handed over);
    the confirm dialog's answer and the clock are parameters. */
module InventoryManager {
  import opened Common
  import opened Menu

  // ---------------------------------------------------------------------
  // Search and category
  // ---------------------------------------------------------------------

  /** The name contains the query, ignoring case, and the category is the
      selected one or the selection is "All". */
  predicate Matches(item: MenuItem, query: string, category: string) {
    Contains(Lower(item.name), Lower(query)) && (category == "All" || item.category == category)
  }

  /** `filteredItems`. */
  function FilteredItems(items: seq<MenuItem>, query: string, category: string): seq<MenuItem> {
    Filter(items, (m: MenuItem) => Matches(m, query, category))
  }

  /** The list shows exactly the matching items, in menu order; with an
      empty query and "All" it shows the whole menu. */
  lemma FilteredItemsSpec(items: seq<MenuItem>, query: string, category: string)
    ensures forall m :: m in FilteredItems(items, query, category) <==>
      m in items && Contains(Lower(m.name), Lower(query)) && (category == "All" || m.category == category)
    ensures query == [] && category == "All" ==> FilteredItems(items, query, category) == items
  {
    forall m
      ensures m in FilteredItems(items, query, category) <==> m in items && Matches(m, query, category)
    {
      FilterMembership(items, (m: MenuItem) => Matches(m, query, category), m);
    }
    if query == [] && category == "All" {
      forall k | 0 <= k < |items|
        ensures Matches(items[k], query, category)
      {
        assert Lower(query) == [];
        assert StartsWith(Lower(items[k].name), []);
      }
      FilterAll(items, (m: MenuItem) => Matches(m, query, category));
    }
  }

  /** Lower-casing an upper-cased text gives the lower-cased text. */
  lemma LowerOfUpper(s: string)
    ensures Lower(Upper(s)) == Lower(s)
  {
    assert forall i :: 0 <= i < |s| ==> Lower(Upper(s))[i] == LowerChar(UpperChar(s[i]));
  }

  /** The search ignores case: a query typed in capitals finds the same
      items. */
  lemma SearchIgnoresCase(items: seq<MenuItem>, query: string, category: string)
    ensures FilteredItems(items, Upper(query), category) == FilteredItems(items, query, category)
  {
    LowerOfUpper(query);
    assert forall m :: Matches(m, Upper(query), category) == Matches(m, query, category);
    FilterSame(items, (m: MenuItem) => Matches(m, Upper(query), category), (m: MenuItem) => Matches(m, query, category));
  }

  /** Two tests that agree everywhere keep the same elements. */
  lemma {:induction false} FilterSame<T>(s: seq<T>, p: T -> bool, q: T -> bool)
    requires forall x :: p(x) == q(x)
    ensures Filter(s, p) == Filter(s, q)
  {
    if s != [] {
      FilterSame(s[1..], p, q);
    }
  }

  // ---------------------------------------------------------------------
  // Availability: the toggle and what the list shows
  // ---------------------------------------------------------------------

  /** `handleToggleAvailability`: the flipped list is handed over before
      the API call, and kept whatever the call does. */
  function ToggleUpdate(items: seq<MenuItem>, id: string, callSucceeded: bool): seq<MenuItem> {
    ToggledAvailability(items, id)
  }

  /** The list handed over differs only in the availability of the items
      with that id, does not depend on the call's outcome, and toggling
      twice restores the list. */
  lemma ToggleUpdateSpec(items: seq<MenuItem>, id: string, ok: bool)
    ensures |ToggleUpdate(items, id, ok)| == |items|
    ensures forall k :: 0 <= k < |items| ==>
      (items[k].id == id ==> ToggleUpdate(items, id, ok)[k].isAvailable == !items[k].isAvailable)
      && ToggleUpdate(items, id, ok)[k].(isAvailable := items[k].isAvailable) == items[k]
    ensures ToggleUpdate(items, id, ok) == ToggleUpdate(items, id, !ok)
    ensures ToggleUpdate(ToggleUpdate(items, id, ok), id, ok) == items
  {
    ToggleTwice(items, id);
  }

  /** What the row and its power button show, as written: `item.available`,
      which is not the flag the toggle flips. */
  predicate ShownAvailableAsWritten(item: MenuItem) {
    item.available == Some(true)
  }

  /** What they evidently should show: the flag the toggle flips. */
  predicate ShownAvailable(item: MenuItem) {
    item.isAvailable
  }

  /** As written, pressing the power button changes nothing on screen:
      every row shows the same availability before and after. */
  lemma ToggleInvisibleAsWritten(items: seq<MenuItem>, id: string, ok: bool)
    ensures forall k :: 0 <= k < |items| ==>
      ShownAvailableAsWritten(ToggleUpdate(items, id, ok)[k]) == ShownAvailableAsWritten(items[k])
  {
  }

  /** Reading the flipped flag, the pressed item's row changes and no other
      row does. */
  lemma ToggleShown(items: seq<MenuItem>, id: string, ok: bool)
    ensures forall k :: 0 <= k < |items| ==>
      (ShownAvailable(ToggleUpdate(items, id, ok)[k]) != ShownAvailable(items[k]) <==> items[k].id == id)
  {
  }

  // ---------------------------------------------------------------------
  // Delete and add
  // ---------------------------------------------------------------------

  /** `handleDeleteItem`: when confirmed, the list without that id (no API
      call is made here); otherwise nothing is handed over. */
  function DeleteUpdate(items: seq<MenuItem>, id: string, confirmed: bool): (r: Option<seq<MenuItem>>)
    ensures r.Some? <==> confirmed
  {
    if confirmed then Some(WithoutId(items, id)) else None
  }

  /** A confirmed delete hands over every other item, in order, and none
      with that id. */
  lemma DeleteUpdateSpec(items: seq<MenuItem>, id: string)
    ensures forall m :: m in DeleteUpdate(items, id, true).value <==> m in items && m.id != id
    ensures |DeleteUpdate(items, id, true).value| <= |items|
  {
    WithoutIdSpec(items, id);
  }

  /** The id given to an added item: `new_` and the clock in milliseconds. */
  function NewId(now: nat): string {
    "new_" + DecimalText(now)
  }

  /** Items added at different milliseconds get different ids. */
  lemma NewIdInjective(a: nat, b: nat)
    requires NewId(a) == NewId(b)
    ensures a == b
  {
    assert DecimalText(a) == NewId(a)[4..];
    assert DecimalText(b) == NewId(b)[4..];
    DecimalRoundTrip(a);
    DecimalRoundTrip(b);
  }

  /** `handleAddItem`: the new item, with its id, on top of the list. */
  function AddUpdate(items: seq<MenuItem>, newItem: MenuItem, now: nat): seq<MenuItem> {
    [newItem.(id := NewId(now))] + items
  }

  /** The added item comes first, keeps everything it was given but its
      id, has an id starting with `new_`, and the rest of the list is as
      it was. */
  lemma AddUpdateSpec(items: seq<MenuItem>, newItem: MenuItem, now: nat)
    ensures var r := AddUpdate(items, newItem, now);
      && |r| == |items| + 1 && r[1..] == items
      && r[0].(id := newItem.id) == newItem
      && StartsWith(r[0].id, "new_") && r[0].id == NewId(now)
  {
    var r := AddUpdate(items, newItem, now);
    assert r[0].id[..4] == "new_";
  }
}
