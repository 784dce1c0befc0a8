/** The dish detail sheet (components/FoodDetailModal.tsx): the choices a
    guest makes before adding one dish (size, add-ons, quantity, notes),
    the price it shows for them, and the one-line "AI insight". */
module FoodDetail {
  import opened Common
  import opened Menu
  import SmartCart
  import SmartMenu

  // ---------------------------------------------------------------------
  // Pricing
  // ---------------------------------------------------------------------

  /** `basePrice`: the chosen size's price, but only on a portion item. */
  function BasePrice(item: MenuItem, size: Option<Size>): int {
    if item.portion && size.Some? then size.value.price else item.price
  }

  /** `finalTotal`: (base price + `addonsTotal`) × quantity. */
  function FinalTotal(item: MenuItem, size: Option<Size>, addons: seq<string>, quantity: int): int {
    (BasePrice(item, size) + SmartMenu.AddonsPrice(item.addons, addons)) * quantity
  }

  /** The price of one offered add-on, or nothing for a name the item does
      not offer. */
  function AddonPrice(offered: Option<seq<Addon>>, name: string): int {
    if offered.None? then 0
    else
      var a := SmartMenu.FindAddon(offered.value, name);
      if a.Some? then a.value.price else 0
  }

  /** The add-on total of two lists one after the other is the sum of the
      two totals. */
  lemma {:induction false} AddonsPriceAppend(offered: Option<seq<Addon>>, a: seq<string>, b: seq<string>)
    ensures SmartMenu.AddonsPrice(offered, a + b)
         == SmartMenu.AddonsPrice(offered, a) + SmartMenu.AddonsPrice(offered, b)
  {
    if b == [] {
      assert a + b == a;
    } else if offered.Some? {
      var init, x := b[..|b| - 1], b[|b| - 1];
      assert (a + b)[..|a + b| - 1] == a + init;
      assert (a + b)[|a + b| - 1] == x;
      AddonsPriceAppend(offered, a, init);
    }
  }

  /** One name's share of the add-on total. */
  lemma AddonsPriceOne(offered: Option<seq<Addon>>, x: string)
    ensures SmartMenu.AddonsPrice(offered, [x]) == AddonPrice(offered, x)
  {
    assert [x][..0] == [];
  }

  /** Dropping every copy of a name takes its price off once per copy. */
  lemma {:induction false} AddonsPriceWithout(offered: Option<seq<Addon>>, names: seq<string>, n: string)
    ensures SmartMenu.AddonsPrice(offered, Filter(names, Other(n)))
            + multiset(names)[n] * AddonPrice(offered, n)
         == SmartMenu.AddonsPrice(offered, names)
  {
    if names != [] {
      var init, x := names[..|names| - 1], names[|names| - 1];
      assert names == init + [x];
      AddonsPriceWithout(offered, init, n);
      AddonsPriceAppend(offered, init, [x]);
      FilterAppend(init, [x], Other(n));
      var kept := Filter([x], Other(n));
      AddonsPriceAppend(offered, Filter(init, Other(n)), kept);
      AddonsPriceOne(offered, x);
      WithoutLast(offered, names, init, x, n, kept);
      Recombine(SmartMenu.AddonsPrice(offered, Filter(names, Other(n))),
                SmartMenu.AddonsPrice(offered, Filter(init, Other(n))),
                SmartMenu.AddonsPrice(offered, kept),
                SmartMenu.AddonsPrice(offered, names), SmartMenu.AddonsPrice(offered, init),
                AddonPrice(offered, x), multiset(init)[n], multiset(names)[n],
                AddonPrice(offered, n), x == n);
    }
  }

  /** The arithmetic of the step of `AddonsPriceWithout`. */
  lemma Recombine(after: int, afterInit: int, kept: int, total: int, totalInit: int, last: int,
                  countInit: int, count: int, price: int, dropped: bool)
    requires after == afterInit + kept && total == totalInit + last
    requires afterInit + countInit * price == totalInit
    requires count == countInit + (if dropped then 1 else 0)
    requires kept == (if dropped then 0 else last)
    requires dropped ==> last == price
    ensures after + count * price == total
  {
    if dropped {
      assert count * price == countInit * price + price;
    }
  }

  /** The last step of `AddonsPriceWithout`, on the last name alone. */
  lemma WithoutLast(offered: Option<seq<Addon>>, names: seq<string>, init: seq<string>, x: string,
                    n: string, kept: seq<string>)
    requires names == init + [x] && kept == Filter([x], Other(n))
    ensures multiset(names)[n] == multiset(init)[n] + (if x == n then 1 else 0)
    ensures SmartMenu.AddonsPrice(offered, kept) == if x == n then 0 else AddonPrice(offered, x)
    ensures x == n ==> AddonPrice(offered, x) == AddonPrice(offered, n)
  {
    AddonsPriceOne(offered, x);
    if x != n {
      assert kept == [x];
    } else {
      assert kept == [];
    }
  }

  /** `toggleAddon` on the price: selecting an add-on adds its price once;
      deselecting one takes it off once per time it was listed. */
  lemma ToggleAddonPrice(item: MenuItem, size: Option<Size>, addons: seq<string>, name: string)
    ensures name !in addons ==>
      SmartMenu.AddonsPrice(item.addons, Toggled(addons, name))
      == SmartMenu.AddonsPrice(item.addons, addons) + AddonPrice(item.addons, name)
    ensures name in addons ==>
      SmartMenu.AddonsPrice(item.addons, Toggled(addons, name))
      == SmartMenu.AddonsPrice(item.addons, addons) - multiset(addons)[name] * AddonPrice(item.addons, name)
  {
    if name in addons {
      AddonsPriceWithout(item.addons, addons, name);
    } else {
      AddonsPriceAppend(item.addons, addons, [name]);
    }
  }

  /** The total shown is what the cart line added from it will cost: the
      entry `handleDetailedAdd` makes is priced at the unit price shown and
      carries the quantity shown. */
  lemma ShownTotalIsLineTotal(item: MenuItem, quantity: int, notes: string, addons: seq<string>,
                              size: Option<Size>, cartId: string)
    requires size.Some? ==> item.portion
    ensures SmartCart.LineTotal(SmartMenu.DetailedEntry(item, quantity, notes, addons, size, cartId))
         == FinalTotal(item, size, addons, quantity)
  {
  }

  // ---------------------------------------------------------------------
  // Insight line
  // ---------------------------------------------------------------------

  const ProteinInsight := "This high-protein dish fits your post-workout goal perfectly."
  const SpicyInsight := "Ideally spiced to match your fiery craving."
  const StrongInsight := "Excellent match for your taste profile."
  const LocalInsight := "A local favorite customized for your preferences."

  /** `matchReasons.some(r => r.includes(word))` */
  predicate SomeReasonContains(reasons: seq<string>, word: string) {
    exists k :: 0 <= k < |reasons| && Contains(reasons[k], word)
  }

  /** `getInsight` as written: the reason texts are searched case
      sensitively. */
  function Insight(matchPercentage: int, reasons: seq<string>): string {
    if matchPercentage > 90 then
      if SomeReasonContains(reasons, "protein") then ProteinInsight
      else if SomeReasonContains(reasons, "spicy") then SpicyInsight
      else StrongInsight
    else LocalInsight
  }

  /** `getInsight` with the reasons searched in lower case, so that the
      menu's capitalised reasons ("High Protein", "Spicy Craving") are
      found. */
  function CaselessInsight(matchPercentage: int, reasons: seq<string>): string {
    if matchPercentage > 90 then
      if SomeReasonContains(LowerAll(reasons), "protein") then ProteinInsight
      else if SomeReasonContains(LowerAll(reasons), "spicy") then SpicyInsight
      else StrongInsight
    else LocalInsight
  }

  function LowerAll(reasons: seq<string>): (r: seq<string>)
    ensures |r| == |reasons| && forall k :: 0 <= k < |r| ==> r[k] == Lower(reasons[k])
  {
    seq(|reasons|, k requires 0 <= k < |reasons| => Lower(reasons[k]))
  }

  /** The reasons the menu attaches for a protein goal and for a spicy
      mood. */
  lemma MenuReasons(tags: seq<string>)
    requires "high_protein" in tags
    ensures "High Protein" in SmartMenu.GoalRules("protein", "Protein", tags).reasons
    ensures "Spicy Craving" in SmartMenu.MoodRules(true, false, false).reasons
  {
  }

  /** As written, a strong match whose reason is the menu's "High Protein"
      or "Spicy Craving" gets the generic line, not the protein or spicy
      one: the lower-case search word never occurs in the capitalised
      reason. */
  lemma InsightMissesMenuReasons(r: string)
    requires r == "High Protein" || r == "Spicy Craving"
    ensures Insight(95, [r]) == StrongInsight
  {
    if r == "High Protein" {
      HighProteinLacksWords(r);
    } else {
      SpicyCravingLacksWords(r);
    }
    assert !SomeReasonContains([r], "protein") && !SomeReasonContains([r], "spicy");
  }

  lemma HighProteinLacksWords(r: string)
    requires r == "High Protein"
    ensures !Contains(r, "protein") && !Contains(r, "spicy")
  {
    NoChar(r, "protein");
    NoChar(r, "spicy");
  }

  lemma SpicyCravingLacksWords(r: string)
    requires r == "Spicy Craving"
    ensures !Contains(r, "protein") && !Contains(r, "spicy")
  {
    NoPair(r, "protein");
    NoChar(r, "spicy");
  }

  /** A string without the first character of `t` does not contain `t`. */
  lemma NoChar(s: string, t: string)
    requires t != [] && forall k :: 0 <= k < |s| ==> s[k] != t[0]
    ensures !Contains(s, t)
  {
    if Contains(s, t) {
      ContainsFirstChar(s, t);
    }
  }

  /** A string in which the first two characters of `t` never stand side by
      side does not contain `t`. */
  lemma NoPair(s: string, t: string)
    requires |t| >= 2
    requires forall k :: 0 <= k < |s| - 1 ==> s[k] != t[0] || s[k + 1] != t[1]
    ensures !Contains(s, t)
  {
    if Contains(s, t) {
      ContainsFirstChar(s, t);
    }
  }

  /** With the reasons lower-cased first, those two reasons select the
      protein and the spicy lines. */
  lemma CaselessInsightFindsMenuReasons(r: string)
    requires r == "High Protein" || r == "Spicy Craving"
    ensures r == "High Protein" ==> CaselessInsight(95, [r]) == ProteinInsight
    ensures r == "Spicy Craving" ==> CaselessInsight(95, [r]) == SpicyInsight
  {
    var low := Lower(r);
    assert LowerAll([r]) == [low];
    if r == "High Protein" {
      HighProteinLowered(r, low);
      ContainsAt(low, "protein", 5);
      assert [low][0] == low;
      assert SomeReasonContains([low], "protein");
    } else {
      SpicyCravingLowered(r, low);
      ContainsAt(low, "spicy", 0);
      NoPair(low, "protein");
      assert [low][0] == low;
      assert SomeReasonContains([low], "spicy");
      assert !SomeReasonContains([low], "protein");
    }
  }

  lemma HighProteinLowered(r: string, low: string)
    requires r == "High Protein" && low == Lower(r)
    ensures |low| == 12 && low[5..12] == "protein"
  {
  }

  lemma SpicyCravingLowered(r: string, low: string)
    requires r == "Spicy Craving" && low == Lower(r)
    ensures low == "spicy craving"
  {
  }

  /** Lower-casing first only widens the search: whatever the written
      version recognises as a strong protein or spicy match, the corrected
      one does too, and a weak match gets the same line from both. */
  lemma CaselessInsightExtends(matchPercentage: int, reasons: seq<string>, word: string)
    requires forall k :: 0 <= k < |word| ==> LowerChar(word[k]) == word[k]
    ensures SomeReasonContains(reasons, word) ==> SomeReasonContains(LowerAll(reasons), word)
    ensures matchPercentage <= 90 ==> CaselessInsight(matchPercentage, reasons) == Insight(matchPercentage, reasons)
  {
    if SomeReasonContains(reasons, word) {
      var k :| 0 <= k < |reasons| && Contains(reasons[k], word);
      LowerKeepsContains(reasons[k], word);
      assert LowerAll(reasons)[k] == Lower(reasons[k]);
    }
  }

  /** A lower-case word found in a string is found in its lower-case form. */
  lemma {:induction false} LowerKeepsContains(s: string, t: string)
    requires forall k :: 0 <= k < |t| ==> LowerChar(t[k]) == t[k]
    requires Contains(s, t)
    ensures Contains(Lower(s), t)
  {
    if t == [] {
      assert StartsWith(Lower(s), t);
    } else {
      ContainsFirstChar(s, t);
      var k :| 0 <= k <= |s| - |t| && s[k] == t[0] && s[k..k + |t|] == t;
      assert Lower(s)[k..k + |t|] == t by {
        forall j | 0 <= j < |t|
          ensures Lower(s)[k + j] == t[j]
        {
          assert s[k + j] == t[j];
        }
      }
      ContainsAt(Lower(s), t, k);
    }
  }

  // ---------------------------------------------------------------------
  // The sheet's state
  // ---------------------------------------------------------------------

  /** What the sheet hands to `onAddToCart`. */
  datatype AddRequest = AddRequest(item: MenuItem, quantity: int, notes: string,
                                   addons: seq<string>, size: Option<Size>)

  class DetailSheet {
    var item: MenuItem
    var quantity: int
    var selectedSize: Option<Size>
    var notes: string
    var selectedAddons: seq<string>
    var addedPairing: bool

    /** The quantity stepper never goes below one, and a size is chosen
        only on a portion item. */
    predicate Valid()
      reads this
    {
      quantity >= 1 && (selectedSize.Some? ==> item.portion)
    }

    /** The price line the sheet shows. */
    function Total(): int
      reads this
    {
      FinalTotal(item, selectedSize, selectedAddons, quantity)
    }

    /** The initial state, before the first opening. */
    constructor (item: MenuItem)
      ensures this.item == item && quantity == 1 && selectedSize == None
      ensures notes == "" && selectedAddons == [] && !addedPairing
      ensures Valid()
    {
      this.item := item;
      quantity, selectedSize, notes, selectedAddons, addedPairing := 1, None, "", [], false;
    }

    /** The effect on opening: everything back to its default, and a
        portion item starts on its last size. */
    method Open(newItem: MenuItem)
      modifies this
      ensures item == newItem && quantity == 1 && notes == "" && selectedAddons == []
      ensures !addedPairing
      ensures selectedSize == SmartMenu.LastSize(newItem)
      ensures Valid()
    {
      item := newItem;
      quantity := 1;
      notes := "";
      selectedAddons := [];
      addedPairing := false;
      if newItem.portion && newItem.sizes.Some? && |newItem.sizes.value| > 0 {
        selectedSize := Some(newItem.sizes.value[|newItem.sizes.value| - 1]);
      } else {
        selectedSize := None;
      }
    }

    /** `toggleAddon` */
    method ToggleAddon(name: string)
      requires Valid()
      modifies this
      ensures selectedAddons == Toggled(old(selectedAddons), name)
      ensures item == old(item) && quantity == old(quantity) && selectedSize == old(selectedSize)
      ensures notes == old(notes) && addedPairing == old(addedPairing)
      ensures Valid()
    {
      if name in selectedAddons {
        selectedAddons := Filter(selectedAddons, Other(name));
      } else {
        selectedAddons := selectedAddons + [name];
      }
    }

    /** A size button; the buttons exist only for a portion item's sizes. */
    method SelectSize(size: Size)
      requires Valid()
      requires item.portion && item.sizes.Some? && size in item.sizes.value
      modifies this
      ensures selectedSize == Some(size)
      ensures item == old(item) && quantity == old(quantity) && notes == old(notes)
      ensures selectedAddons == old(selectedAddons) && addedPairing == old(addedPairing)
      ensures Valid()
    {
      selectedSize := Some(size);
    }

    method SetNotes(text: string)
      requires Valid()
      modifies this
      ensures notes == text
      ensures item == old(item) && quantity == old(quantity) && selectedSize == old(selectedSize)
      ensures selectedAddons == old(selectedAddons) && addedPairing == old(addedPairing)
      ensures Valid()
    {
      notes := text;
    }

    /** The plus button. */
    method Increment()
      requires Valid()
      modifies this
      ensures quantity == old(quantity) + 1
      ensures item == old(item) && selectedSize == old(selectedSize) && notes == old(notes)
      ensures selectedAddons == old(selectedAddons) && addedPairing == old(addedPairing)
      ensures Valid()
    {
      quantity := quantity + 1;
    }

    /** The minus button, which does nothing at one. */
    method Decrement()
      requires Valid()
      modifies this
      ensures quantity == if old(quantity) > 1 then old(quantity) - 1 else old(quantity)
      ensures item == old(item) && selectedSize == old(selectedSize) && notes == old(notes)
      ensures selectedAddons == old(selectedAddons) && addedPairing == old(addedPairing)
      ensures Valid()
    {
      if quantity > 1 {
        quantity := quantity - 1;
      }
    }

    /** `handleAddPairing`: with a pairing, one of it goes to the cart at
        once, plain, and the pairing is marked added. */
    method AddPairing(pairing: Option<MenuItem>) returns (r: Option<AddRequest>)
      requires Valid()
      modifies this
      ensures pairing.None? ==> r == None && addedPairing == old(addedPairing)
      ensures pairing.Some? ==> r == Some(AddRequest(pairing.value, 1, "", [], None)) && addedPairing
      ensures item == old(item) && quantity == old(quantity) && selectedSize == old(selectedSize)
      ensures notes == old(notes) && selectedAddons == old(selectedAddons)
      ensures Valid()
    {
      if pairing.None? {
        return None;
      }
      r := Some(AddRequest(pairing.value, 1, "", [], None));
      addedPairing := true;
    }

    /** The add button: the current choices, as shown. */
    method AddToCart() returns (r: AddRequest)
      requires Valid()
      ensures r == AddRequest(item, quantity, notes, selectedAddons, selectedSize)
      ensures r.quantity >= 1
      ensures forall cartId: string ::
        SmartCart.LineTotal(SmartMenu.DetailedEntry(r.item, r.quantity, r.notes, r.addons, r.size, cartId))
        == Total()
    {
      r := AddRequest(item, quantity, notes, selectedAddons, selectedSize);
      forall cartId: string
        ensures SmartCart.LineTotal(SmartMenu.DetailedEntry(r.item, r.quantity, r.notes, r.addons, r.size, cartId))
                == Total()
      {
        ShownTotalIsLineTotal(item, quantity, notes, selectedAddons, selectedSize, cartId);
      }
    }
  }
}
