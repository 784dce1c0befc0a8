/** The top-level screen logic (App.tsx): the payloads the guest screens
    send, the choice of "the guest's order" among the cached tickets, and
    the sequences of backend calls the staff buttons issue. The guest
    screens always act for table 4. Backend calls are described by value
    (`ApiCall`); confirm dialogs are boolean parameters. */
module App {
  import opened Common
  import opened Tickets
  import opened SmartCart
  import Backend
  import JN = JsNumber

  // ---------------------------------------------------------------------
  // Payloads
  // ---------------------------------------------------------------------

  /** `Number(tableId)` as the payload carries it: the whole number the
      text reads as under `Number`. `None` stands for NaN and also for a
      number with a fractional part; the backend refuses either as a table. */
  function TableNumber(text: string): (r: Option<int>)
    ensures r.Some? <==> JN.NumberOf(text).Some? && DecimalValue(JN.NumberOf(text).value.fraction) == 0
  {
    var d := JN.NumberOf(text);
    if d.Some? && DecimalValue(d.value.fraction) == 0 then
      Some(if d.value.negative then -(d.value.whole as int) else d.value.whole)
    else None
  }

  /** The table is the very number `Number` reads. */
  lemma TableNumberValue(text: string)
    requires TableNumber(text).Some?
    ensures TableNumber(text).value as real == JN.Value(JN.NumberOf(text).value)
  {
    JN.FractionZero(JN.NumberOf(text).value.fraction);
  }

  /** A run of digits is that table. */
  lemma TableNumberOfDigits(d: string)
    requires AllDigits(d) && d != []
    ensures TableNumber(d) == Some(DecimalValue(d) as int)
  {
    var v := DecimalValue(d);
    assert JN.NumberOf(d) == Some(JN.Decimal(false, v, [])) by { JN.DigitsRead(d); }
    TableNumberOfDecimal(d, false, v);
  }

  /** A minus sign and a run of digits is the negated table. */
  lemma TableNumberOfNegative(d: string)
    requires AllDigits(d) && d != []
    ensures TableNumber(['-'] + d) == Some(-(DecimalValue(d) as int))
  {
    JN.NegativeDigitsRead(d);
    TableNumberOfDecimal(['-'] + d, true, DecimalValue(d));
  }

  lemma TableNumberOfDecimal(text: string, negative: bool, v: nat)
    requires JN.NumberOf(text) == Some(JN.Decimal(negative, v, []))
    ensures TableNumber(text) == Some(if negative then -(v as int) else v)
  {
    assert DecimalValue([]) == 0;
  }

  /** `Number(String(n)) == n`, and the empty table text reads as table 0. */
  lemma JsNumberText(n: int)
    ensures TableNumber(IntText(n)) == Some(n)
    ensures TableNumber("") == Some(0)
  {
    JN.BlankText();
    var m := if n < 0 then -n else n;
    var d := DecimalText(m);
    DecimalRoundTrip(m);
    if n < 0 {
      assert IntText(n) == ['-'] + d;
      TableNumberOfNegative(d);
    } else {
      TableNumberOfDigits(d);
    }
  }

  datatype PayloadItem = PayloadItem(name: string, quantity: int, notes: Option<string>, price: int)

  /** The JSON body of `POST /api/orders`. A `tableId` of `None` is `NaN`,
      which JSON sends as `null`. */
  datatype Payload = Payload(tableId: Option<int>, guestName: string, totalAmount: int,
                             items: seq<PayloadItem>, kind: string)

  function ToPayloadItem(c: CartItem): PayloadItem {
    PayloadItem(c.name, c.quantity, c.notes, c.price)
  }

  function ToPayloadItems(items: seq<CartItem>): (r: seq<PayloadItem>)
    ensures |r| == |items|
    ensures forall k :: 0 <= k < |items| ==> r[k] == ToPayloadItem(items[k])
  {
    seq(|items|, k requires 0 <= k < |items| => ToPayloadItem(items[k]))
  }

  /** `handleGuestPlaceOrder`: the cart as a food order, with the untaxed
      cart value as its total. */
  function GuestOrderPayload(items: seq<CartItem>, guestName: string, tableId: string): (p: Payload)
    ensures p.tableId == TableNumber(tableId) && p.guestName == guestName && p.kind == "food"
    ensures p.totalAmount == Subtotal(items)
    ensures |p.items| == |items|
    ensures forall k :: 0 <= k < |items| ==>
      p.items[k].name == items[k].name && p.items[k].quantity == items[k].quantity
      && p.items[k].notes == items[k].notes && p.items[k].price == items[k].price
  {
    Payload(TableNumber(tableId), guestName,
            Subtotal(items), ToPayloadItems(items), "food")
  }

  /** `handleCreateTask`: a service request is a zero-value order of one
      item named after the request, for table 4. */
  function ServiceRequestPayload(kindText: string): (p: Payload)
    ensures p.tableId == Some(4) && p.guestName == "Guest" && p.totalAmount == 0
    ensures p.items == [PayloadItem(kindText, 1, None, 0)] && p.kind == "request"
  {
    Payload(Some(4), "Guest", 0, [PayloadItem(kindText, 1, None, 0)], "request")
  }

  /** The backend's reading of an item: a missing note becomes "" and the
      item starts pending. */
  function ToOrderItem(i: PayloadItem): Tickets.OrderItem {
    OrderItem(i.name, i.price as real, i.quantity, i.notes.GetOr(""), Some(ItemPending))
  }

  /** The request as the backend validates it: a `null` table is rejected
      (`None`). */
  function ToOrderCreate(p: Payload): (r: Option<Backend.OrderCreate>)
    ensures r.Some? <==> p.tableId.Some?
    ensures r.Some? ==>
      r.value.tableId == p.tableId.value && r.value.kind == Some(p.kind)
      && r.value.guestName == Some(p.guestName) && r.value.totalAmount == Some(p.totalAmount as real)
      && |r.value.items| == |p.items|
      && forall k :: 0 <= k < |p.items| ==> r.value.items[k] == ToOrderItem(p.items[k])
  {
    if p.tableId.None? then None
    else
      Some(Backend.OrderCreate(p.tableId.value,
                               seq(|p.items|, k requires 0 <= k < |p.items| => ToOrderItem(p.items[k])),
                               Some(p.guestName), Some(p.totalAmount as real), Some(p.kind)))
  }

  /** The backend's subtotal of the sent items is the cart's subtotal. */
  lemma {:induction false} SentSubtotal(items: seq<CartItem>, sent: seq<Tickets.OrderItem>)
    requires |sent| == |items|
    requires forall k :: 0 <= k < |items| ==> sent[k] == ToOrderItem(ToPayloadItem(items[k]))
    ensures ItemsSubtotal(sent) == Subtotal(items) as real
  {
    if items != [] {
      SentSubtotal(items[1..], sent[1..]);
      assert ItemsSubtotal(sent) == Tickets.LineTotal(sent[0]) + ItemsSubtotal(sent[1..]);
      assert Subtotal(items) == SmartCart.LineTotal(items[0]) + Subtotal(items[1..]);
      assert Tickets.LineTotal(sent[0]) == (items[0].price * items[0].quantity) as real;
    }
  }

  /** What the guest pays depends on the table: a first order stores the
      untaxed cart value the client computed, while an order merged into
      the table's open order makes the backend store 107.5% of all items. */
  lemma FirstOrderUntaxedMergeTaxed(items: seq<CartItem>, guestName: string, tableId: string,
                                    oid: nat, now: int, open: Backend.OrderDoc)
    requires TableNumber(tableId).Some?
    ensures var c := ToOrderCreate(GuestOrderPayload(items, guestName, tableId)).value;
      && Backend.NewOrder(oid, c, now).totalAmount == Subtotal(items) as real
      && Backend.Merge(open, c).totalAmount == (ItemsSubtotal(open.items) + Subtotal(items) as real) * 1.075
      && Backend.NewOrder(oid, c, now).kind == Some("food")
  {
    var p := GuestOrderPayload(items, guestName, tableId);
    var c := ToOrderCreate(p).value;
    SentSubtotal(items, c.items);
    Backend.MergeEffect(open, c);
  }

  /** A service request becomes a new request order holding one pending
      item of price 0, and a zero total; merged into the table's open order
      it adds that item and nothing to the value. */
  lemma ServiceRequestStored(kindText: string, oid: nat, now: int, open: Backend.OrderDoc)
    ensures var c := ToOrderCreate(ServiceRequestPayload(kindText)).value;
      && Backend.NewOrder(oid, c, now).kind == Some("request")
      && Backend.NewOrder(oid, c, now).totalAmount == 0.0
      && Backend.NewOrder(oid, c, now).items == [OrderItem(kindText, 0.0, 1, "", Some(ItemPending))]
      && Backend.NewOrder(oid, c, now).tableId == 4
      && Backend.Merge(open, c).totalAmount == ItemsSubtotal(open.items) * 1.075
  {
    var c := ToOrderCreate(ServiceRequestPayload(kindText)).value;
    assert c.items == [OrderItem(kindText, 0.0, 1, "", Some(ItemPending))];
    assert ItemsSubtotal(c.items) == Tickets.LineTotal(c.items[0]) + ItemsSubtotal(c.items[1..]);
    assert c.items[1..] == [];
    Backend.MergeEffect(open, c);
  }

  // ---------------------------------------------------------------------
  // The guest's order
  // ---------------------------------------------------------------------

  /** `statusPriority`, with `|| 0` for anything else. */
  function StatusPriority(s: OrderStatus): (p: int)
    ensures 0 <= p <= 4
    ensures p == 0 <==> s == Paid || s == Cancelled
  {
    match s
    case Placed => 4
    case Cooking => 3
    case Ready => 2
    case Served => 1
    case Paid => 0
    case Cancelled => 0
  }

  /** A table-4 ticket that is placed, ready or served; its type is not
      looked at, so a service request can be chosen too. */
  predicate GuestCandidate(t: Ticket) {
    t.tableId == 4 && (t.status == Placed || t.status == Ready || t.status == Served)
  }

  function NegPriority(t: Ticket): int { -StatusPriority(t.status) }

  /** `guestOrder`: the candidates sorted by falling priority (a stable
      sort), then the first. */
  function GuestOrder(ts: seq<Ticket>): Option<Ticket> {
    var c := Filter(ts, GuestCandidate);
    if c == [] then None else Some(SortBy(c, NegPriority)[0])
  }

  /** The chosen order is a candidate of the highest priority, the first
      such in cache order; there is none exactly when no ticket is a
      candidate. */
  lemma GuestOrderChoice(ts: seq<Ticket>)
    ensures var c := Filter(ts, GuestCandidate);
      && (GuestOrder(ts).None? <==> forall t :: t in ts ==> !GuestCandidate(t))
      && (GuestOrder(ts).Some? ==>
            exists i :: 0 <= i < |c| && c[i] == GuestOrder(ts).value
              && (forall j :: 0 <= j < |c| ==> StatusPriority(c[j].status) <= StatusPriority(c[i].status))
              && (forall j :: 0 <= j < i ==> StatusPriority(c[j].status) < StatusPriority(c[i].status)))
  {
    var c := Filter(ts, GuestCandidate);
    FilterEmpty(ts, GuestCandidate);
    if c != [] {
      SortByHead(c, NegPriority);
      var i := FirstMin(c, NegPriority);
      assert c[i] == GuestOrder(ts).value;
    }
  }

  /** The chosen order is a candidate from the cache whose priority no
      candidate exceeds. */
  lemma GuestOrderIsTop(ts: seq<Ticket>)
    requires GuestOrder(ts).Some?
    ensures GuestCandidate(GuestOrder(ts).value) && GuestOrder(ts).value in ts
    ensures forall t :: t in ts && GuestCandidate(t) ==>
      StatusPriority(t.status) <= StatusPriority(GuestOrder(ts).value.status)
  {
    GuestOrderChoice(ts);
    var c := Filter(ts, GuestCandidate);
    var g := GuestOrder(ts).value;
    var i :| 0 <= i < |c| && c[i] == g
      && (forall j :: 0 <= j < |c| ==> StatusPriority(c[j].status) <= StatusPriority(c[i].status));
    FilterMembership(ts, GuestCandidate, g);
    forall t | t in ts && GuestCandidate(t)
      ensures StatusPriority(t.status) <= StatusPriority(g.status)
    {
      FilterMembership(ts, GuestCandidate, t);
      var j :| 0 <= j < |c| && c[j] == t;
    }
  }

  /** Placed beats ready, which beats served. */
  lemma GuestOrderPrefersEarlierStages(ts: seq<Ticket>)
    ensures GuestOrder(ts).Some? ==> GuestCandidate(GuestOrder(ts).value) && GuestOrder(ts).value in ts
    ensures (exists t :: t in ts && GuestCandidate(t) && t.status == Placed) ==>
      GuestOrder(ts).Some? && GuestOrder(ts).value.status == Placed
    ensures (exists t :: t in ts && GuestCandidate(t) && t.status == Ready) ==>
      GuestOrder(ts).Some? && GuestOrder(ts).value.status in {Placed, Ready}
  {
    GuestOrderChoice(ts);
    if GuestOrder(ts).Some? {
      GuestOrderIsTop(ts);
    }
  }

  // ---------------------------------------------------------------------
  // Staff actions as call sequences
  // ---------------------------------------------------------------------

  /** One backend request, or a reload of the ticket cache. */
  /** What a staff or guest button makes happen, in order: the backend
      calls it issues, the reload of the ticket list (`refreshOrders`, which
      never rejects: it catches and marks the screen offline), and the
      alert of a failed cancellation. */
  datatype ApiCall =
    | UpdateStatusCall(id: string, status: string)
    | SettleCall(tableId: string)
    | CancelCall(id: string)
    | Refresh
    | CancelFailedAlert

  /** `ts[k]` is the first table-4 ticket that is not paid. */
  predicate IsCancelTarget(ts: seq<Ticket>, k: int) {
    0 <= k < |ts| && ts[k].tableId == 4 && ts[k].status != Paid
    && forall j :: 0 <= j < k ==> !(ts[j].tableId == 4 && ts[j].status != Paid)
  }

  /** The order `handleCancelOrder` cancels: the id of the first table-4
      ticket that is not paid (cancelled ones and requests included), if
      that id is not empty. */
  function CancelTarget(ts: seq<Ticket>): (r: Option<string>)
    ensures forall k :: IsCancelTarget(ts, k) ==> r == (if ts[k].id == "" then None else Some(ts[k].id))
    ensures (forall k :: 0 <= k < |ts| ==> !(ts[k].tableId == 4 && ts[k].status != Paid)) ==> r.None?
  {
    if ts == [] then None
    else if ts[0].tableId == 4 && ts[0].status != Paid then
      (if ts[0].id == "" then None else Some(ts[0].id))
    else
      var r := CancelTarget(ts[1..]);
      assert forall k :: IsCancelTarget(ts, k) ==> k >= 1 && IsCancelTarget(ts[1..], k - 1);
      r
  }

  /** `handleCancelOrder`: nothing without a target or without the guest's
      confirmation; otherwise the cancel call, then a reload when it
      succeeds or the alert when it is rejected. */
  function CancelOrderCalls(ts: seq<Ticket>, confirmed: bool, cancelled: bool): (calls: seq<ApiCall>)
    ensures calls != [] <==> CancelTarget(ts).Some? && confirmed
    ensures calls != [] ==> |calls| == 2 && calls[0] == CancelCall(CancelTarget(ts).value)
    ensures Refresh in calls <==> calls != [] && cancelled
    ensures CancelFailedAlert in calls <==> calls != [] && !cancelled
  {
    match CancelTarget(ts)
    case None => []
    case Some(id) =>
      if !confirmed then []
      else if cancelled then [CancelCall(id), Refresh]
      else [CancelCall(id), CancelFailedAlert]
  }

  /** `handleMarkReady`: the ready update, and the reload only when the
      update succeeded (a rejection propagates out of the handler). */
  function MarkReadyCalls(id: string, updated: bool): (calls: seq<ApiCall>)
    ensures |calls| >= 1 && calls[0] == UpdateStatusCall(id, "ready")
    ensures Refresh in calls <==> updated
    ensures CancelFailedAlert !in calls && |calls| <= 2
  {
    if updated then [UpdateStatusCall(id, "ready"), Refresh] else [UpdateStatusCall(id, "ready")]
  }

  /** `handleSettleTable`: nothing when the confirm dialog is declined;
      otherwise the settle call, and the reload only when it succeeded. */
  function SettleTableCalls(tableId: string, confirmed: bool, settled: bool): (calls: seq<ApiCall>)
    ensures !confirmed <==> calls == []
    ensures confirmed ==> calls[0] == SettleCall(tableId)
    ensures Refresh in calls <==> confirmed && settled
    ensures |calls| <= 2 && CancelFailedAlert !in calls
  {
    if !confirmed then []
    else if settled then [SettleCall(tableId), Refresh]
    else [SettleCall(tableId)]
  }

  /** A request whose first item mentions "Bill". */
  predicate IsBillRequest(t: Ticket) {
    t.kind == Some("request") && t.items != [] && Contains(t.items[0].name, "Bill")
  }

  /** `tickets.find(t => t.id === id)`: the first ticket with the id. */
  function FindById(ts: seq<Ticket>, id: string): (r: Option<Ticket>)
    ensures r.Some? ==> r.value.id == id && exists k ::
      0 <= k < |ts| && ts[k] == r.value && forall j :: 0 <= j < k ==> ts[j].id != id
    ensures r.None? ==> forall k :: 0 <= k < |ts| ==> ts[k].id != id
  {
    if ts == [] then None
    else if ts[0].id == id then Some(ts[0])
    else
      var r := FindById(ts[1..], id);
      if r.Some? then
        var k :| 0 <= k < |ts[1..]| && ts[1..][k] == r.value
          && forall j :: 0 <= j < k ==> ts[1..][j].id != id;
        assert ts[k + 1] == r.value && forall j :: 0 <= j < k + 1 ==> ts[j].id != id;
        r
      else r
  }

  /** `handleMarkServed`: serving a bill request first runs
      `handleSettleTable` for its table and, unless the settle was
      rejected, marks it served without reloading; anything else is
      marked served and reloaded when that update succeeded. */
  function MarkServedCalls(ts: seq<Ticket>, id: string, confirmed: bool, settled: bool,
                           updated: bool): seq<ApiCall> {
    var t := FindById(ts, id);
    if t.Some? && IsBillRequest(t.value) then
      SettleTableCalls(IntText(t.value.tableId), confirmed, settled)
      + (if confirmed && !settled then [] else [UpdateStatusCall(id, "served")])
    else MarkReadyServed(id, updated)
  }

  /** The plain branch of `handleMarkServed`. */
  function MarkReadyServed(id: string, updated: bool): seq<ApiCall> {
    if updated then [UpdateStatusCall(id, "served"), Refresh] else [UpdateStatusCall(id, "served")]
  }

  /** A bill request is served last, after its table is settled, and is
      not served when the settle was rejected; anything else is served
      first and reloaded exactly when that succeeded. A settle request is
      issued exactly for a confirmed bill request, and it names the
      ticket's own table, which the backend reads back as that table. */
  lemma MarkServedSequence(ts: seq<Ticket>, id: string, confirmed: bool, settled: bool, updated: bool)
    ensures var calls := MarkServedCalls(ts, id, confirmed, settled, updated);
      var t := FindById(ts, id);
      var bill := t.Some? && IsBillRequest(t.value);
      && (UpdateStatusCall(id, "served") in calls <==> !(bill && confirmed && !settled))
      && (bill && !(confirmed && !settled) ==> calls[|calls| - 1] == UpdateStatusCall(id, "served"))
      && (bill && confirmed && !settled ==> calls == [SettleCall(IntText(t.value.tableId))])
      && (!bill ==> calls[0] == UpdateStatusCall(id, "served") && (Refresh in calls <==> updated))
      && ((exists s :: SettleCall(s) in calls) <==> bill && confirmed)
      && (bill && confirmed ==>
            calls[0] == SettleCall(IntText(t.value.tableId))
            && Backend.ParseInt(calls[0].tableId) == Some(t.value.tableId))
  {
    var calls := MarkServedCalls(ts, id, confirmed, settled, updated);
    var t := FindById(ts, id);
    if t.Some? && IsBillRequest(t.value) {
      Backend.ParseIntText(t.value.tableId);
      var settle := SettleTableCalls(IntText(t.value.tableId), confirmed, settled);
      if confirmed {
        assert calls[0] == SettleCall(IntText(t.value.tableId));
        if settled {
          assert calls == [SettleCall(IntText(t.value.tableId)), Refresh, UpdateStatusCall(id, "served")];
        } else {
          assert calls == [SettleCall(IntText(t.value.tableId))];
        }
      } else {
        assert calls == [UpdateStatusCall(id, "served")];
      }
    } else {
      assert calls == MarkReadyServed(id, updated);
    }
  }
}
