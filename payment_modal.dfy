/** The payment screen (components/PaymentModal.tsx): its bill, the
    idle → processing → success status machine around the settlement call,
    the 15-second countdown back to the menu once paid, and the choice of
    items the receipt prints. The settlement call and the order fetch are
    oracle parameters; each timer tick is a method call. */
module Payment {
  import opened Common
  import opened SmartCart
  import Tickets

  // ---------------------------------------------------------------------
  // Bill
  // ---------------------------------------------------------------------

  datatype PaymentBill = PaymentBill(subtotal: int, gst: int, service: int, total: int)

  /** The screen's calculations: no discount, the two charges rounded
      separately on the subtotal. */
  function BillOf(items: seq<CartItem>): PaymentBill {
    var sub := Subtotal(items);
    PaymentBill(sub, Gst(sub), ServiceCharge(sub), sub + Gst(sub) + ServiceCharge(sub))
  }

  /** On a non-negative subtotal the screen charges exactly what the cart
      panel shows without a coupon, which is within a rupee of 107.5%. */
  lemma BillIsCartBillWithoutCoupon(items: seq<CartItem>)
    requires Subtotal(items) >= 0
    ensures var b, c := BillOf(items), ComputeBill(items, 0);
      && b.subtotal == c.subtotal && b.gst == c.gst && b.service == c.service && b.total == c.total
    ensures var b := BillOf(items);
      b.subtotal as real * 1.075 - 1.0 <= b.total as real < b.subtotal as real * 1.075 + 1.0
  {
    var b := BillOf(items);
    ChargesNearExact(b.subtotal, b.gst, b.service);
  }

  /** Both charges grow with the amount they are taken on. */
  lemma ChargesMonotone(a: int, b: int)
    requires a <= b
    ensures Gst(a) <= Gst(b) && ServiceCharge(a) <= ServiceCharge(b)
  {
  }

  /** The screen never applies the cart panel's coupon: with a positive
      discount on a positive subtotal, it asks for at least one rupee more
      than the panel showed. */
  lemma CouponNotCarriedOver(items: seq<CartItem>, discount: int)
    requires Subtotal(items) >= 1 && discount >= 1
    ensures BillOf(items).total >= ComputeBill(items, discount).total + 1
  {
    var c := ComputeBill(items, discount);
    ChargesMonotone(c.effective, Subtotal(items));
  }

  // ---------------------------------------------------------------------
  // Countdown
  // ---------------------------------------------------------------------

  /** One second of the countdown on a succeeded payment: the pending
      one-second timer decrements the countdown, and the effect that re-runs
      on the new value calls `onPaymentComplete` as soon as it is 0 or
      less. Without a pending timer (no countdown, no success, or already
      at 0) nothing happens. The result is the next countdown and whether
      completion fired. */
  function TickOnce(countdown: Option<int>, success: bool): (Option<int>, bool) {
    if countdown.None? || !success || countdown.value <= 0 then (countdown, false)
    else (Some(countdown.value - 1), countdown.value - 1 <= 0)
  }

  /** `n` seconds of the effect on a succeeded payment: the final countdown
      and whether completion fired at some tick. */
  function Ticks(countdown: Option<int>, n: nat): (Option<int>, bool)
    decreases n
  {
    if n == 0 then (countdown, false)
    else
      var step := TickOnce(countdown, true);
      var rest := Ticks(step.0, n - 1);
      (rest.0, step.1 || rest.1)
  }

  /** From `c` seconds, the first `k < c` seconds count down without
      firing, and completion fires in the `c`-th second, the one that
      reaches 0. */
  lemma {:induction false} CountdownRunsOut(c: nat, k: nat)
    requires 1 <= c && k < c
    ensures Ticks(Some(c), k) == (Some(c - k), false)
    ensures Ticks(Some(c), c) == (Some(0), true)
  {
    var step := TickOnce(Some(c), true);
    assert step == (Some(c - 1), c == 1);
    if k > 0 {
      CountdownRunsOut(c - 1, k - 1);
      assert Ticks(Some(c), k) == (Ticks(Some(c - 1), k - 1).0, Ticks(Some(c - 1), k - 1).1);
    }
    if c > 1 {
      CountdownRunsOut(c - 1, 0);
    }
    assert Ticks(Some(c), c) == (Ticks(Some(c - 1), c - 1).0, c == 1 || Ticks(Some(c - 1), c - 1).1);
  }

  /** Once cancelled, the countdown never fires. */
  lemma {:induction false} CancelledCountdownNeverFires(n: nat)
    ensures Ticks(None, n) == (None, false)
  {
    if n > 0 {
      CancelledCountdownNeverFires(n - 1);
    }
  }

  // ---------------------------------------------------------------------
  // The screen's state
  // ---------------------------------------------------------------------

  datatype PayMethod = Upi | Card | Cash
  datatype PayStatus = Idle | Processing | Success

  /** The settlement hook: absent, or its outcome. */
  datatype PayHook = NoHook | Settles | Rejects

  class PaymentSheet {
    var payMethod: Option<PayMethod>
    var status: PayStatus
    var rating: int
    var countdown: Option<int>

    constructor ()
      ensures payMethod == None && status == Idle && rating == 0 && countdown == None
    {
      payMethod, status, rating, countdown := None, Idle, 0, None;
    }

    /** The Pay button is enabled with a method chosen and no payment under
        way. */
    predicate CanPay()
      reads this
    {
      payMethod.Some? && status != Processing
    }

    /** The effect on opening: a fresh start. */
    method Open()
      modifies this
      ensures payMethod == None && status == Idle && rating == 0 && countdown == None
      ensures !CanPay()
    {
      status := Idle;
      payMethod := None;
      rating := 0;
      countdown := None;
    }

    method ChooseMethod(m: PayMethod)
      modifies this
      ensures payMethod == Some(m)
      ensures status == old(status) && rating == old(rating) && countdown == old(countdown)
      ensures status != Processing ==> CanPay()
    {
      payMethod := Some(m);
    }

    /** `handleConfirm` up to the settlement's outcome: nothing without a
        method; otherwise processing, and back to idle (with the failure
        alert) when the hook rejects. */
    method Confirm(hook: PayHook) returns (alerted: bool)
      modifies this
      ensures old(payMethod).None? ==>
        !alerted && status == old(status)
      ensures old(payMethod).Some? ==>
        alerted == (hook == Rejects) && status == (if hook == Rejects then Idle else Processing)
      ensures payMethod == old(payMethod) && rating == old(rating) && countdown == old(countdown)
    {
      alerted := false;
      if payMethod.None? {
        return;
      }
      status := Processing;
      if hook == Rejects {
        status := Idle;
        alerted := true;
      }
    }

    /** The 1.5 s delay after a settled payment: success, which starts the
        15 s countdown (the status effect runs only on a change). */
    method DelayElapsed()
      modifies this
      ensures status == Success
      ensures countdown == if old(status) == Success then old(countdown) else Some(15)
      ensures payMethod == old(payMethod) && rating == old(rating)
    {
      if status != Success {
        status := Success;
        countdown := Some(15);
      }
    }

    /** One second of the countdown; `completed` is the call to
        `onPaymentComplete` made by the effect run that sees 0. */
    method Tick() returns (completed: bool)
      modifies this
      ensures (countdown, completed) == TickOnce(old(countdown), old(status) == Success)
      ensures payMethod == old(payMethod) && status == old(status) && rating == old(rating)
    {
      completed := false;
      if countdown.None? || status != Success || countdown.value <= 0 {
        return;
      }
      countdown := Some(countdown.value - 1);
      if countdown.value <= 0 {
        completed := true;
      }
    }

    /** A star rating stops the countdown. */
    method Rate(star: int)
      modifies this
      ensures rating == star && countdown == None
      ensures payMethod == old(payMethod) && status == old(status)
    {
      countdown := None;
      rating := star;
    }

    /** "Order more" stops the countdown too (and hands back to the menu). */
    method OrderMore()
      modifies this
      ensures countdown == None
      ensures payMethod == old(payMethod) && status == old(status) && rating == old(rating)
    {
      countdown := None;
    }
  }

  // ---------------------------------------------------------------------
  // Receipt
  // ---------------------------------------------------------------------

  /** A receipt row, in the cart-entry shape the receipt printer takes. */
  datatype ReceiptLine = ReceiptLine(cartId: string, menuId: string, name: string, price: real,
                                     quantity: int, category: string, notes: Option<string>)

  datatype Receipt = Receipt(lines: seq<ReceiptLine>, total: real)

  /** The order as the fetch returns it: its items, when present, and its
      total, when present. */
  datatype FetchedOrder = FetchedOrder(items: Option<seq<Tickets.OrderItem>>, totalAmount: Option<real>)

  function ServerLines(items: seq<Tickets.OrderItem>): (r: seq<ReceiptLine>)
    ensures |r| == |items|
    ensures forall k :: 0 <= k < |r| ==>
      r[k] == ReceiptLine("server-" + DecimalText(k), "uk", items[k].name, items[k].price,
                          items[k].quantity, "Mains", Some(items[k].notes))
  {
    seq(|items|, k requires 0 <= k < |items| =>
      ReceiptLine("server-" + DecimalText(k), "uk", items[k].name, items[k].price,
                  items[k].quantity, "Mains", Some(items[k].notes)))
  }

  function CartLine(c: CartItem): ReceiptLine {
    ReceiptLine(c.cartId, c.menuId, c.name, c.price as real, c.quantity, c.category, c.notes)
  }

  function CartLines(items: seq<CartItem>): (r: seq<ReceiptLine>)
    ensures |r| == |items| && forall k :: 0 <= k < |r| ==> r[k] == CartLine(items[k])
  {
    seq(|items|, k requires 0 <= k < |items| => CartLine(items[k]))
  }

  function LineAmount(l: ReceiptLine): real { l.price * l.quantity as real }

  /** `handleDownloadReceipt`: with an order id whose fetch returned items,
      the server's items; otherwise the cart's. The total printed is the
      server's total when it is there and not zero, else the sum of the
      printed rows. */
  function ReceiptFor(orderId: Option<string>, fetched: Option<FetchedOrder>, cart: seq<CartItem>): Receipt {
    var fromServer := orderId.Some? && orderId.value != "" && fetched.Some? && fetched.value.items.Some?;
    var lines := if fromServer then ServerLines(fetched.value.items.value) else CartLines(cart);
    var given := if fromServer then fetched.value.totalAmount else None;
    Receipt(lines, if given.Some? && given.value != 0.0 then given.value else RealSumOf(lines, LineAmount))
  }

  /** The cart rows total the cart's subtotal. */
  lemma {:induction false} CartLinesTotal(items: seq<CartItem>)
    ensures RealSumOf(CartLines(items), LineAmount) == Subtotal(items) as real
  {
    if items != [] {
      assert CartLines(items)[1..] == CartLines(items[1..]);
      CartLinesTotal(items[1..]);
    }
  }

  /** Without an order id, or when the fetch fails or brings no items, the
      receipt prints the cart at its subtotal. */
  lemma ReceiptFallsBackToCart(orderId: Option<string>, fetched: Option<FetchedOrder>, cart: seq<CartItem>)
    requires orderId.None? || orderId == Some("") || fetched.None? || fetched.value.items.None?
    ensures ReceiptFor(orderId, fetched, cart) == Receipt(CartLines(cart), Subtotal(cart) as real)
  {
    CartLinesTotal(cart);
  }

  /** With the server's items, the receipt prints exactly those rows, in
      order, names, prices, quantities and notes intact; its total is the
      server's unless that is missing or zero. */
  lemma ReceiptFromServer(orderId: string, order: FetchedOrder, cart: seq<CartItem>)
    requires orderId != "" && order.items.Some?
    ensures var r := ReceiptFor(Some(orderId), Some(order), cart);
      && |r.lines| == |order.items.value|
      && (forall k :: 0 <= k < |r.lines| ==>
            r.lines[k].name == order.items.value[k].name && r.lines[k].price == order.items.value[k].price
            && r.lines[k].quantity == order.items.value[k].quantity
            && r.lines[k].notes == Some(order.items.value[k].notes))
      && (order.totalAmount.Some? && order.totalAmount.value != 0.0 ==> r.total == order.totalAmount.value)
      && (order.totalAmount.None? || order.totalAmount == Some(0.0) ==>
            r.total == RealSumOf(r.lines, LineAmount))
  {
  }
}
