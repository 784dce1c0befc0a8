/** The manager's overview (pages/ManagerDashboard.tsx): revenue, average
    ticket, live-order count, best seller and recent transactions, all
    derived from the order list the page polls. */
module ManagerDashboard {
  import opened Common
  import opened Tickets
  import opened Tally

  predicate IsPaid(o: Ticket) { o.status == Paid }
  predicate IsLive(o: Ticket) { IsActive(o.status) }

  function PaidOrders(orders: seq<Ticket>): seq<Ticket> { Filter(orders, IsPaid) }

  /** `o.totalAmount || 0`. */
  function AmountOrZero(o: Ticket): real {
    if o.totalAmount.Some? then o.totalAmount.value else 0.0
  }

  /** Σ amount over the paid orders. */
  function TotalRevenue(orders: seq<Ticket>): real {
    RealSumOf(PaidOrders(orders), AmountOrZero)
  }

  /** Revenue per paid order, 0 with none. */
  function AverageTicket(orders: seq<Ticket>): real {
    var n := |PaidOrders(orders)|;
    if n > 0 then TotalRevenue(orders) / n as real else 0.0
  }

  /** `Math.round` on a real: the nearest integer, ties going up. */
  function RoundReal(x: real): (r: int)
    ensures r as real - 0.5 <= x < r as real + 0.5
  {
    (x + 0.5).Floor
  }

  function ActiveCount(orders: seq<Ticket>): nat { |Filter(orders, IsLive)| }

  /** Only paid orders bring revenue: appending an order that is not paid
      leaves it unchanged, and appending a paid one adds its amount. */
  lemma RevenueCountsPaidOnly(orders: seq<Ticket>, o: Ticket)
    ensures TotalRevenue(orders + [o]) == TotalRevenue(orders) + (if o.status == Paid then AmountOrZero(o) else 0.0)
  {
    FilterAppend(orders, [o], IsPaid);
    RealSumOfAppend(PaidOrders(orders), Filter([o], IsPaid), AmountOrZero);
  }

  predicate IsClosed(o: Ticket) { o.status == Paid || o.status == Cancelled }

  /** The live count is the number of orders neither paid nor cancelled:
      every order is either live or closed, never both. */
  lemma ActiveCountSpec(orders: seq<Ticket>)
    ensures ActiveCount(orders) == |orders| - |Filter(orders, IsClosed)|
    ensures forall o :: o in orders ==> (o in Filter(orders, IsLive) <==> o.status != Paid && o.status != Cancelled)
  {
    FilterPartition(orders, IsLive, IsClosed);
    forall o | o in orders
      ensures o in Filter(orders, IsLive) <==> o.status != Paid && o.status != Cancelled
    {
      FilterMembership(orders, IsLive, o);
    }
  }

  /** When every paid order's amount lies between `lo` and `hi`, so does the
      average. */
  lemma AverageTicketBounds(orders: seq<Ticket>, lo: real, hi: real)
    requires PaidOrders(orders) != []
    requires forall k :: 0 <= k < |PaidOrders(orders)| ==> lo <= AmountOrZero(PaidOrders(orders)[k]) <= hi
    ensures lo <= AverageTicket(orders) <= hi
  {
    MeanBounds(PaidOrders(orders), lo, hi);
  }

  /** The mean of amounts that lie between `lo` and `hi` does too. */
  lemma MeanBounds(paid: seq<Ticket>, lo: real, hi: real)
    requires paid != []
    requires forall k :: 0 <= k < |paid| ==> lo <= AmountOrZero(paid[k]) <= hi
    ensures lo <= RealSumOf(paid, AmountOrZero) / |paid| as real <= hi
  {
    SumBounds(paid, lo, hi);
    DivBounds(RealSumOf(paid, AmountOrZero), |paid| as real, lo, hi);
  }

  lemma DivBounds(total: real, n: real, lo: real, hi: real)
    requires n > 0.0 && lo * n <= total <= hi * n
    ensures lo <= total / n <= hi
  {
    var a := total / n;
    assert a * n == total;
  }

  lemma {:induction false} SumBounds(s: seq<Ticket>, lo: real, hi: real)
    requires forall k :: 0 <= k < |s| ==> lo <= AmountOrZero(s[k]) <= hi
    ensures lo * |s| as real <= RealSumOf(s, AmountOrZero) <= hi * |s| as real
  {
    if s != [] {
      SumBounds(s[1..], lo, hi);
      AddBounds(lo, hi, AmountOrZero(s[0]), RealSumOf(s[1..], AmountOrZero), |s[1..]| as real);
    }
  }

  lemma AddBounds(lo: real, hi: real, x: real, rest: real, n: real)
    requires lo <= x <= hi && lo * n <= rest <= hi * n
    ensures lo * (n + 1.0) <= x + rest <= hi * (n + 1.0)
  {
  }

  function TicketItems(o: Ticket): seq<OrderItem> { o.items }
  function ItemName(it: OrderItem): string { it.name }
  function ItemQuantity(it: OrderItem): int { it.quantity }

  /** The `itemCounts` loops: quantities summed by name over the paid
      orders' items, in first-seen order. */
  method ItemCounts(orders: seq<Ticket>) returns (counts: seq<Sale>)
    ensures counts == Tallied(Lines(PaidOrders(orders), TicketItems), ItemName, ItemQuantity)
  {
    var paid := PaidOrders(orders);
    counts := [];
    for i := 0 to |paid|
      invariant counts == Tallied(Lines(paid[..i], TicketItems), ItemName, ItemQuantity)
    {
      LinesAppendOne(paid, i, TicketItems);
      counts := CountItems(Lines(paid[..i], TicketItems), paid[i].items, counts);
    }
    assert paid[..|paid|] == paid;
  }

  /** The inner loop over one order's items, continuing the counts of the
      lines `done` before it. */
  method CountItems(ghost done: seq<OrderItem>, items: seq<OrderItem>, counts0: seq<Sale>)
    returns (counts: seq<Sale>)
    requires counts0 == Tallied(done, ItemName, ItemQuantity)
    ensures counts == Tallied(done + items, ItemName, ItemQuantity)
  {
    counts := counts0;
    assert done + items[..0] == done;
    for j := 0 to |items|
      invariant counts == Tallied(done + items[..j], ItemName, ItemQuantity)
    {
      assert done + items[..j + 1] == (done + items[..j]) + [items[j]];
      TalliedSnoc(done + items[..j], items[j], ItemName, ItemQuantity);
      counts := AddSale(counts, items[j].name, items[j].quantity);
    }
    assert items[..|items|] == items;
  }

  function NegCount(s: Sale): int { -s.count }

  /** `Object.entries(itemCounts).sort((a, b) => b[1] - a[1])[0]`. */
  function BestSeller(counts: seq<Sale>): Option<Sale> {
    if counts == [] then None else Some(SortBy(counts, NegCount)[0])
  }

  /** There is a best seller exactly when some item was sold; it is an entry
      with the largest count, and the first such entry. */
  lemma BestSellerSpec(counts: seq<Sale>)
    ensures BestSeller(counts).None? <==> counts == []
    ensures BestSeller(counts).Some? ==>
      exists k :: 0 <= k < |counts| && counts[k] == BestSeller(counts).value
        && (forall j :: 0 <= j < |counts| ==> counts[j].count <= counts[k].count)
        && (forall j :: 0 <= j < k ==> counts[j].count < counts[k].count)
  {
    if counts != [] {
      SortByHead(counts, NegCount);
      var k := FirstMin(counts, NegCount);
      assert counts[k] == BestSeller(counts).value;
    }
  }

  function Reversed<T>(s: seq<T>): (r: seq<T>)
    ensures |r| == |s| && forall k :: 0 <= k < |s| ==> r[k] == s[|s| - 1 - k]
  {
    seq(|s|, k requires 0 <= k < |s| => s[|s| - 1 - k])
  }

  /** `[...paidOrders].reverse().slice(0, 10)`. */
  function Recent(orders: seq<Ticket>): seq<Ticket> {
    var paid := PaidOrders(orders);
    Reversed(paid)[..if |paid| < 10 then |paid| else 10]
  }

  /** The table lists the last ten paid orders, latest in the list first,
      and nothing else. */
  lemma RecentSpec(orders: seq<Ticket>)
    ensures var paid, r := PaidOrders(orders), Recent(orders);
      && |r| == (if |paid| < 10 then |paid| else 10)
      && (forall k :: 0 <= k < |r| ==> r[k] == paid[|paid| - 1 - k])
      && (forall k :: 0 <= k < |r| ==> r[k].status == Paid && r[k] in orders)
  {
    var paid := PaidOrders(orders);
    forall k | 0 <= k < |Recent(orders)|
      ensures Recent(orders)[k] in orders
    {
      FilterMembership(orders, IsPaid, paid[|paid| - 1 - k]);
    }
  }

  /** The page's state: the last order list it fetched. */
  class Overview {
    var orders: seq<Ticket>
    var loading: bool

    constructor ()
      ensures orders == [] && loading
    {
      orders, loading := [], true;
    }

    /** `loadOrders` with the fetch's outcome: a success replaces the list,
        a failure keeps it; either way loading is over. */
    method Load(fetched: Option<seq<Ticket>>)
      modifies this
      ensures orders == if fetched.Some? then fetched.value else old(orders)
      ensures !loading
    {
      if fetched.Some? {
        orders := fetched.value;
      }
      loading := false;
    }
  }
}
