/** The coupon sheet (components/OffersModal.tsx): the fixed offer table,
    the rule that turns an offer and the cart into a discount or an error,
    and the typed-code lookup. */
module Offers {
  import opened Common
  import opened SmartCart

  datatype OfferKind = Flat | Percent | FreeItem

  /** `value` is an amount in rupees for flat and free-item offers, and a
      percentage for percent offers. */
  datatype Offer = Offer(code: string, title: string, minOrder: int, kind: OfferKind,
                         value: int, category: Option<string>)

  const Welcome100 := Offer("WELCOME100", "Flat ₹100 Off", 500, Flat, 100, None)
  const SweetTooth := Offer("SWEETTOOTH", "Free Dessert", 300, FreeItem, 180, Some("Dessert"))
  const Hdfc5 := Offer("HDFC5", "5% Cashback", 0, Percent, 5, None)

  const AllOffers: seq<Offer> := [Welcome100, SweetTooth, Hdfc5]

  /** Either `onApply(code, discount, desc)` or an error message. */
  datatype Verdict = Apply(code: string, discount: int, desc: string) | Refuse(error: string)

  /** The items an offer for `cat` can make free. */
  function Eligible(items: seq<CartItem>, cat: string): (r: seq<CartItem>)
    ensures forall x :: x in r ==> x in items && x.category == cat
    ensures forall x :: x in items && x.category == cat ==> x in r
  {
    if items == [] then []
    else (if items[0].category == cat then [items[0]] else []) + Eligible(items[1..], cat)
  }

  /** `Math.min(...prices)` of a non-empty list. */
  function MinPrice(items: seq<CartItem>): (m: int)
    requires items != []
    ensures exists x :: x in items && x.price == m
    ensures forall x :: x in items ==> m <= x.price
  {
    if |items| == 1 then items[0].price
    else
      var rest := MinPrice(items[1..]);
      if items[0].price <= rest then items[0].price else rest
  }

  /** `validateAndApply`: the minimum order first, then the discount by the
      offer's kind, which must come out positive. */
  function Validate(offer: Offer, cartTotal: int, items: seq<CartItem>): (v: Verdict)
    ensures cartTotal < offer.minOrder ==>
      v == Refuse("Add items worth ₹" + IntText(offer.minOrder - cartTotal) + " more to apply.")
    ensures v.Apply? ==> v.code == offer.code && v.discount > 0 && cartTotal >= offer.minOrder
    ensures v.Apply? && offer.kind == Flat ==> v.discount == offer.value
    ensures v.Apply? && offer.kind == Percent ==> v.discount == RoundDiv(cartTotal * offer.value, 100)
    ensures v.Apply? && offer.kind == FreeItem ==>
      offer.category.Some? && (v.discount == offer.value ||
        exists x :: x in items && x.category == offer.category.value && v.discount == x.price)
  {
    if cartTotal < offer.minOrder then
      Refuse("Add items worth ₹" + IntText(offer.minOrder - cartTotal) + " more to apply.")
    else
      match offer.kind
      case Flat =>
        if offer.value > 0 then Apply(offer.code, offer.value, "Flat ₹" + IntText(offer.value) + " off applied")
        else Refuse("Conditions not met for this offer.")
      case Percent =>
        var d := RoundDiv(cartTotal * offer.value, 100);
        if d > 0 then Apply(offer.code, d, IntText(offer.value) + "% discount applied")
        else Refuse("Conditions not met for this offer.")
      case FreeItem =>
        if offer.category.None? then Refuse("Conditions not met for this offer.")
        else
          var cat := offer.category.value;
          var eligible := Eligible(items, cat);
          if eligible == [] then Refuse("Add a " + cat + " to your cart to avail this offer.")
          else
            var m := MinPrice(eligible);
            var d := if m <= offer.value then m else offer.value;
            if d > 0 then Apply(offer.code, d, "Free " + cat + " applied")
            else Refuse("Conditions not met for this offer.")
  }

  /** A free-item offer never discounts more than its cap or than the
      cheapest eligible item, and is refused when there is none. */
  lemma FreeItemBounds(offer: Offer, cartTotal: int, items: seq<CartItem>)
    requires offer.kind == FreeItem && offer.category.Some? && cartTotal >= offer.minOrder
    ensures var v := Validate(offer, cartTotal, items);
      && ((forall x :: x in items ==> x.category != offer.category.value) ==>
            v == Refuse("Add a " + offer.category.value + " to your cart to avail this offer."))
      && (v.Apply? ==>
            v.discount <= offer.value
            && forall x :: x in items && x.category == offer.category.value ==> v.discount <= x.price)
  {
    var e := Eligible(items, offer.category.value);
    if e != [] {
      assert e[0] in e;
    }
  }

  /** A percentage of at most 100 never discounts more than the cart. */
  lemma PercentWithinTotal(offer: Offer, cartTotal: int, items: seq<CartItem>)
    requires offer.kind == Percent && 0 <= offer.value <= 100 && cartTotal >= 0
    ensures var v := Validate(offer, cartTotal, items);
      v.Apply? ==> v.discount <= cartTotal
  {
    var n := cartTotal * offer.value;
    assert n <= cartTotal * 100 by { MulMonotone(offer.value, 100, cartTotal); }
  }

  /** WELCOME100 applies exactly from a 500 cart on, and then takes 100 off. */
  lemma Welcome100Rule(cartTotal: int, items: seq<CartItem>)
    ensures Validate(Welcome100, cartTotal, items).Apply? <==> cartTotal >= 500
    ensures cartTotal >= 500 ==> Validate(Welcome100, cartTotal, items).discount == 100
  {
  }

  /** HDFC5 has no minimum, but 5% of a cart below 10 rounds to nothing, so
      it applies exactly from a 10 cart on. */
  lemma Hdfc5Rule(cartTotal: int, items: seq<CartItem>)
    ensures Validate(Hdfc5, cartTotal, items).Apply? <==> cartTotal >= 10
  {
    if cartTotal >= 0 {
      var r := RoundDiv(cartTotal * 5, 100);
      assert (2 * r - 1) * 100 <= 2 * (cartTotal * 5) < (2 * r + 1) * 100;
      if cartTotal >= 10 {
        assert r > 0;
      } else {
        assert r <= 0;
      }
    }
  }

  /** SWEETTOOTH applies exactly from a 300 cart on that holds a dessert,
      provided no dessert in it is free already. */
  lemma SweetToothRule(cartTotal: int, items: seq<CartItem>)
    ensures Validate(SweetTooth, cartTotal, items).Apply? <==>
      cartTotal >= 300 && HasCategory(items, "Dessert")
      && forall x :: x in items && x.category == "Dessert" ==> x.price > 0
  {
    var e := Eligible(items, "Dessert");
    if HasCategory(items, "Dessert") {
      var i :| 0 <= i < |items| && items[i].category == "Dessert";
      assert items[i] in e;
    }
    if e != [] {
      assert e[0] in e;
      var m := MinPrice(e);
      if m <= 0 {
        var x :| x in e && x.price == m;
        assert x in items;
      }
    }
  }

  /** `OFFERS.find(o => o.code === code)` */
  function FindOffer(code: string): (r: Option<Offer>)
    ensures r.Some? <==> code in {"WELCOME100", "SWEETTOOTH", "HDFC5"}
    ensures r.Some? ==> r.value in AllOffers && r.value.code == code
  {
    if code == "WELCOME100" then Some(Welcome100)
    else if code == "SWEETTOOTH" then Some(SweetTooth)
    else if code == "HDFC5" then Some(Hdfc5)
    else None
  }

  /** The typed code as it is looked up: trimmed and upper-cased. */
  function NormalCode(input: string): string {
    Upper(Trim(input))
  }

  /** Normalising a code that is already normalised changes nothing. */
  lemma NormalCodeIdempotent(input: string)
    ensures NormalCode(NormalCode(input)) == NormalCode(input)
  {
    var t := Trim(input);
    UpperOfTrimmed(t);
    UpperIdempotent(t);
  }

  /** Upper-casing a trimmed string leaves nothing to trim. */
  lemma UpperOfTrimmed(t: string)
    requires t == [] || (!IsSpace(t[0]) && !IsSpace(t[|t| - 1]))
    ensures Trim(Upper(t)) == Upper(t)
  {
    var u := Upper(t);
    if u != [] {
      assert u[0] == UpperChar(t[0]) && u[|u| - 1] == UpperChar(t[|t| - 1]);
      UpperKeepsSpace(t[0]);
      UpperKeepsSpace(t[|t| - 1]);
      TrimNoSpace(u);
    }
  }

  /** The verdict on a code that has been normalised. */
  function ApplyCode(code: string, cartTotal: int, items: seq<CartItem>): (v: Verdict)
    ensures FindOffer(code).None? ==> v == Refuse("Invalid Coupon Code")
    ensures FindOffer(code).Some? ==> v == Validate(FindOffer(code).value, cartTotal, items)
  {
    match FindOffer(code)
    case None => Refuse("Invalid Coupon Code")
    case Some(o) => Validate(o, cartTotal, items)
  }

  /** `handleManualApply`: the typed code, trimmed and upper-cased, must name
      one of the offers, whose own rule then decides. */
  function ManualApply(input: string, cartTotal: int, items: seq<CartItem>): (v: Verdict)
    ensures FindOffer(NormalCode(input)).None? ==> v == Refuse("Invalid Coupon Code")
    ensures FindOffer(NormalCode(input)).Some? ==>
      v == Validate(FindOffer(NormalCode(input)).value, cartTotal, items)
  {
    ApplyCode(NormalCode(input), cartTotal, items)
  }

  /** Letter case and surrounding blanks do not matter when typing a code:
      typing the normalised code gives the same verdict. */
  lemma ManualApplyNormalises(input: string, cartTotal: int, items: seq<CartItem>)
    ensures ManualApply(NormalCode(input), cartTotal, items) == ManualApply(input, cartTotal, items)
  {
    NormalCodeIdempotent(input);
  }

  /** The sheet's own state: the typed code and the error line. */
  class OffersSheet {
    var inputCode: string
    var error: Option<string>

    constructor ()
      ensures inputCode == "" && error == None
    {
      inputCode, error := "", None;
    }

    /** Opening the sheet clears the error and the typed code. */
    method Open()
      modifies this
      ensures inputCode == "" && error == None
    {
      inputCode, error := "", None;
    }

    /** Applies an offer: on success the sheet reports what to pass to
        `onApply` (and closes); otherwise it shows the error. */
    method ValidateAndApply(offer: Offer, cartTotal: int, items: seq<CartItem>)
      returns (applied: Option<Verdict>)
      modifies this
      ensures Validate(offer, cartTotal, items).Apply? ==>
        applied == Some(Validate(offer, cartTotal, items)) && error == old(error)
      ensures Validate(offer, cartTotal, items).Refuse? ==>
        applied == None && error == Some(Validate(offer, cartTotal, items).error)
      ensures inputCode == old(inputCode)
    {
      if cartTotal < offer.minOrder {
        error := Some("Add items worth ₹" + IntText(offer.minOrder - cartTotal) + " more to apply.");
        return None;
      }
      var discount := 0;
      var desc := "";
      match offer.kind {
        case Flat =>
          discount := offer.value;
          desc := "Flat ₹" + IntText(discount) + " off applied";
        case Percent =>
          discount := RoundDiv(cartTotal * offer.value, 100);
          desc := IntText(offer.value) + "% discount applied";
        case FreeItem =>
          if offer.category.Some? {
            var cat := offer.category.value;
            var eligible := Eligible(items, cat);
            if eligible == [] {
              error := Some("Add a " + cat + " to your cart to avail this offer.");
              return None;
            }
            var m := MinPrice(eligible);
            discount := if m <= offer.value then m else offer.value;
            desc := "Free " + cat + " applied";
          }
      }
      if discount > 0 {
        applied := Some(Apply(offer.code, discount, desc));
      } else {
        error := Some("Conditions not met for this offer.");
        applied := None;
      }
    }

    /** `handleManualApply` on the typed code. */
    method ManualApplyTyped(cartTotal: int, items: seq<CartItem>) returns (applied: Option<Verdict>)
      modifies this
      ensures ManualApply(old(inputCode), cartTotal, items).Apply? ==>
        applied == Some(ManualApply(old(inputCode), cartTotal, items))
      ensures ManualApply(old(inputCode), cartTotal, items).Refuse? ==>
        applied == None && error == Some(ManualApply(old(inputCode), cartTotal, items).error)
    {
      var code := Upper(Trim(inputCode));
      var offer := FindOffer(code);
      if offer.Some? {
        applied := ValidateAndApply(offer.value, cartTotal, items);
      } else {
        error := Some("Invalid Coupon Code");
        applied := None;
      }
    }
  }
}
