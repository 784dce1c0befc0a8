/** The cart panel (components/SmartCart.tsx): the bill with its discount,
    GST and service charge, the "gap analysis" upsell suggestions, and the
    coupon state the panel keeps. */
module SmartCart {
  import opened Common

  /** One cart entry. Prices are whole rupees. */
  datatype CartItem = CartItem(
    cartId: string,
    menuId: string,
    name: string,
    price: int,
    quantity: int,
    category: string,
    size: Option<string>,
    notes: Option<string>,
    image: Option<string>)

  function LineTotal(c: CartItem): int { c.price * c.quantity }

  /** Σ price × quantity */
  function Subtotal(items: seq<CartItem>): int {
    SumOf(items, LineTotal)
  }

  /** `Math.round(x * 0.05)` */
  function Gst(x: int): (g: int)
    ensures g as real - 0.5 <= x as real * 0.05 < g as real + 0.5
  {
    RoundDiv(x, 20)
  }

  /** `Math.round(x * 0.025)` */
  function ServiceCharge(x: int): (s: int)
    ensures s as real - 0.5 <= x as real * 0.025 < s as real + 0.5
  {
    RoundDiv(x, 40)
  }

  /** The integer formulas for the two charges on a non-negative amount. */
  lemma ChargesAsIntegerFormulas(x: int)
    requires x >= 0
    ensures Gst(x) == (5 * x + 50) / 100
    ensures ServiceCharge(x) == (x + 20) / 40
  {
    var g := (5 * x + 50) / 100;
    assert 5 * x + 50 == 100 * g + (5 * x + 50) % 100;
    RoundDivUnique(x, 20, g);
    var s := (x + 20) / 40;
    assert x + 20 == 40 * s + (x + 20) % 40;
    RoundDivUnique(x, 40, s);
  }

  datatype Bill = Bill(subtotal: int, effective: int, gst: int, service: int, total: int)

  /** The panel's calculations: the discount comes off the subtotal but
      never below zero; the two charges are rounded separately. */
  function ComputeBill(items: seq<CartItem>, discount: int): (b: Bill)
    ensures b.subtotal == Subtotal(items)
    ensures b.effective >= 0 && b.effective >= Subtotal(items) - discount
    ensures b.effective == 0 || b.effective == Subtotal(items) - discount
    ensures b.gst == Gst(b.effective) && b.service == ServiceCharge(b.effective)
    ensures b.total == b.effective + b.gst + b.service
  {
    var sub := Subtotal(items);
    var eff := if 0 > sub - discount then 0 else sub - discount;
    Bill(sub, eff, Gst(eff), ServiceCharge(eff), eff + Gst(eff) + ServiceCharge(eff))
  }

  /** Rounding the charges separately keeps the total within one rupee of
      the exact 107.5%, and never below the discounted subtotal. */
  lemma BillNearExact(items: seq<CartItem>, discount: int)
    ensures var b := ComputeBill(items, discount);
      && b.effective as real * 1.075 - 1.0 <= b.total as real < b.effective as real * 1.075 + 1.0
      && b.total >= b.effective
  {
    var b := ComputeBill(items, discount);
    ChargesNearExact(b.effective, b.gst, b.service);
  }

  /** The bound for any non-negative amount and its two rounded charges. */
  lemma ChargesNearExact(effective: int, gst: int, service: int)
    requires effective >= 0 && gst == Gst(effective) && service == ServiceCharge(effective)
    ensures var t := effective + gst + service;
      && effective as real * 1.075 - 1.0 <= t as real < effective as real * 1.075 + 1.0
      && t >= effective
  {
    var e, g, c := effective as real, gst as real, service as real;
    assert g - 0.5 <= e * 0.05 < g + 0.5;
    assert c - 0.5 <= e * 0.025 < c + 0.5;
    assert gst >= 0 && service >= 0;
  }

  /** A discount as large as the subtotal makes the whole bill zero. */
  lemma FullDiscountIsFree(items: seq<CartItem>, discount: int)
    requires discount >= Subtotal(items)
    ensures ComputeBill(items, discount).total == 0
  {
  }

  // ---------------------------------------------------------------------
  // Suggestions
  // ---------------------------------------------------------------------

  /** An upsell offer: a cart entry without its `cartId`. */
  datatype Upsell = Upsell(menuId: string, name: string, price: int, category: string,
                           quantity: int, image: string)
  datatype Suggestion = Suggestion(text: string, item: Upsell)

  const Soda := Upsell("be1", "Fresh Lime Soda", 80, "Beverages", 1,
    "https://images.unsplash.com/photo-1513558161293-cdaf765ed2fd?q=80&w=1000&auto=format&fit=crop")
  const Parotta := Upsell("b1", "Kerala Parotta", 40, "Breads/Rice", 2,
    "https://images.unsplash.com/photo-1625475172084-5f532a2f8c05?q=80&w=1000&auto=format&fit=crop")
  const Payasam := Upsell("d1", "Palada Payasam", 180, "Dessert", 1,
    "https://images.unsplash.com/photo-1628169604754-583b6329007f?q=80&w=1000&auto=format&fit=crop")

  predicate HasCategory(items: seq<CartItem>, cat: string) {
    exists i :: 0 <= i < |items| && items[i].category == cat
  }

  predicate HasFood(items: seq<CartItem>) {
    HasCategory(items, "Mains") || HasCategory(items, "Starters") || HasCategory(items, "Breads/Rice")
  }

  /** The three rules, in order: a drink for food without one, bread for a
      main course without any, dessert for a bill over 500 without one. */
  function Suggestions(items: seq<CartItem>): seq<Suggestion> {
    if items == [] then []
    else
      Picks(HasFood(items) && !HasCategory(items, "Beverages"),
            HasCategory(items, "Mains") && !HasCategory(items, "Breads/Rice"),
            Subtotal(items) > 500 && !HasCategory(items, "Dessert"))
  }

  /** The suggestions whose rules fire, in rule order. */
  function Picks(soda: bool, parotta: bool, payasam: bool): seq<Suggestion> {
    (if soda then [Suggestion("Wash it down 🥤", Soda)] else [])
    + (if parotta then [Suggestion("Best with Gravy 🥘", Parotta)] else [])
    + (if payasam then [Suggestion("Sweet Finish 🍮", Payasam)] else [])
  }

  function Offered(s: seq<Suggestion>): seq<Upsell> {
    seq(|s|, k requires 0 <= k < |s| => s[k].item)
  }

  /** The upsells picked are those whose rules fire, each once, and only
      those. */
  lemma OfferedPicks(soda: bool, parotta: bool, payasam: bool)
    ensures var s := Offered(Picks(soda, parotta, payasam));
      && |s| <= 3
      && (Soda in s <==> soda) && (Parotta in s <==> parotta) && (Payasam in s <==> payasam)
      && (forall k :: 0 <= k < |s| ==>
            (s[k] == Soda && soda) || (s[k] == Parotta && parotta) || (s[k] == Payasam && payasam))
      && (forall j, k :: 0 <= j < k < |s| ==> s[j] != s[k])
  {
    var s := Offered(Picks(soda, parotta, payasam));
    assert s == (if soda then [Soda] else []) + (if parotta then [Parotta] else [])
                + (if payasam then [Payasam] else []);
  }

  /** Each upsell is offered exactly when its rule fires; at most three are
      offered, in rule order, and nothing is suggested for an empty cart or
      for a category the cart already holds. */
  lemma SuggestionRules(items: seq<CartItem>)
    ensures var s := Offered(Suggestions(items));
      && |s| <= 3
      && (items == [] ==> s == [])
      && (Soda in s <==> items != [] && HasFood(items) && !HasCategory(items, "Beverages"))
      && (Parotta in s <==> items != [] && HasCategory(items, "Mains") && !HasCategory(items, "Breads/Rice"))
      && (Payasam in s <==> items != [] && Subtotal(items) > 500 && !HasCategory(items, "Dessert"))
      && (forall k :: 0 <= k < |s| ==> !HasCategory(items, s[k].category))
      && (forall j, k :: 0 <= j < k < |s| ==> s[j] != s[k])
  {
    if items != [] {
      var a := HasFood(items) && !HasCategory(items, "Beverages");
      var b := HasCategory(items, "Mains") && !HasCategory(items, "Breads/Rice");
      var c := Subtotal(items) > 500 && !HasCategory(items, "Dessert");
      assert Suggestions(items) == Picks(a, b, c);
      OfferedPicks(a, b, c);
    }
  }

  // ---------------------------------------------------------------------
  // Panel state
  // ---------------------------------------------------------------------

  /** The Place Order button is disabled for an empty cart. */
  predicate CanPlaceOrder(items: seq<CartItem>) {
    items != []
  }

  class CartPanel {
    var isOpen: bool
    var couponCode: Option<string>
    var discountAmount: int
    var toast: Option<string>

    constructor ()
      ensures !isOpen && couponCode == None && discountAmount == 0 && toast == None
    {
      isOpen, couponCode, discountAmount, toast := false, None, 0, None;
    }

    /** The effect on every cart change: an emptied cart drops the coupon. */
    method OnCartChanged(items: seq<CartItem>)
      modifies this
      ensures items == [] ==> couponCode == None && discountAmount == 0
      ensures items != [] ==> couponCode == old(couponCode) && discountAmount == old(discountAmount)
      ensures isOpen == old(isOpen) && toast == old(toast)
    {
      if |items| == 0 {
        couponCode := None;
        discountAmount := 0;
      }
    }

    /** `handleApplyCoupon`: the toast shows the description, or a stock
        message when it is empty. */
    method ApplyCoupon(code: string, discount: int, desc: string)
      modifies this
      ensures couponCode == Some(code) && discountAmount == discount
      ensures toast == Some(if desc == "" then "Coupon Applied!" else desc)
      ensures isOpen == old(isOpen)
    {
      couponCode := Some(code);
      discountAmount := discount;
      toast := Some(if desc == "" then "Coupon Applied!" else desc);
    }

    method RemoveCoupon()
      modifies this
      ensures couponCode == None && discountAmount == 0
      ensures isOpen == old(isOpen) && toast == old(toast)
    {
      couponCode := None;
      discountAmount := 0;
    }

    /** `handlePlaceOrder`: hands the current items on (the caller then
        clears the cart), drops the coupon and closes the panel. */
    method PlaceOrder(items: seq<CartItem>) returns (placed: seq<CartItem>)
      modifies this
      ensures placed == items
      ensures couponCode == None && discountAmount == 0 && !isOpen
      ensures toast == old(toast)
    {
      placed := items;
      couponCode := None;
      discountAmount := 0;
      isOpen := false;
    }
  }
}
