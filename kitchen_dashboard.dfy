/** The all-in-one staff board (components/KitchenDashboard.tsx): its own
    lists of open tickets, completed tickets and service tasks, the guest's
    live order pushed onto it, the chef's and the waiter's actions, and the
    report figures it folds out of the tickets. The mock data it starts from
    are constructor parameters; sounds are left out. */
module KitchenDashboard {
  import opened Common
  import Menu
  import SmartCart
  import opened Tally

  /** A ticket line as the board keeps it (no price). */
  datatype BoardItem = BoardItem(name: string, quantity: int, notes: Option<string>)

  /** A board ticket. `status` is text: the board expects "new", "cooking",
      "ready" or "served", but the live order's status is copied in
      unchecked. `timestamp` is in milliseconds. */
  datatype BoardTicket = BoardTicket(
    id: string,
    tableId: string,
    timestamp: int,
    status: string,
    guestName: Option<string>,
    items: seq<BoardItem>)

  datatype ServiceTask = ServiceTask(id: string, tableId: string, timestamp: int, kind: string)

  /** The guest's order as handed to the board. */
  datatype ActiveOrder = ActiveOrder(status: string, items: seq<SmartCart.CartItem>)

  // ---------------------------------------------------------------------
  // View filters
  // ---------------------------------------------------------------------

  predicate InKitchenView(t: BoardTicket) { t.status == "new" || t.status == "cooking" }
  predicate InReadyView(t: BoardTicket) { t.status == "ready" }

  function KitchenTickets(ts: seq<BoardTicket>): seq<BoardTicket> { Filter(ts, InKitchenView) }
  function ReadyTickets(ts: seq<BoardTicket>): seq<BoardTicket> { Filter(ts, InReadyView) }

  /** The chef sees exactly the new and cooking tickets, the waiter exactly
      the ready ones; no ticket is in both, and a ticket with any other
      status is in neither. */
  lemma ViewsSpec(ts: seq<BoardTicket>)
    ensures forall t :: t in KitchenTickets(ts) <==> t in ts && t.status in {"new", "cooking"}
    ensures forall t :: t in ReadyTickets(ts) <==> t in ts && t.status == "ready"
    ensures forall t :: !(t in KitchenTickets(ts) && t in ReadyTickets(ts))
  {
    forall t
      ensures t in KitchenTickets(ts) <==> t in ts && t.status in {"new", "cooking"}
      ensures t in ReadyTickets(ts) <==> t in ts && t.status == "ready"
    {
      FilterMembership(ts, InKitchenView, t);
      FilterMembership(ts, InReadyView, t);
    }
  }

  // ---------------------------------------------------------------------
  // Ticket list operations
  // ---------------------------------------------------------------------

  const LiveId := "live-order"

  predicate HasId(ts: seq<BoardTicket>, id: string) {
    exists k :: 0 <= k < |ts| && ts[k].id == id
  }

  /** The tickets with the given id get `status`; the rest stay as they are. */
  function SetStatusWhere(ts: seq<BoardTicket>, id: string, status: string): (r: seq<BoardTicket>)
    ensures |r| == |ts|
    ensures forall k :: 0 <= k < |ts| ==>
      r[k] == if ts[k].id == id then ts[k].(status := status) else ts[k]
  {
    seq(|ts|, k requires 0 <= k < |ts| => if ts[k].id == id then ts[k].(status := status) else ts[k])
  }

  /** The first ticket with the given id (`find`). */
  function FindTicket(ts: seq<BoardTicket>, id: string): (r: Option<BoardTicket>)
    ensures r.Some? ==> r.value in ts && r.value.id == id
    ensures r.Some? ==> exists k :: 0 <= k < |ts| && ts[k] == r.value
                          && forall j :: 0 <= j < k ==> ts[j].id != id
    ensures r.None? <==> !HasId(ts, id)
  {
    if ts == [] then None
    else if ts[0].id == id then Some(ts[0])
    else
      var r := FindTicket(ts[1..], id);
      assert r.Some? ==> exists k :: 0 <= k < |ts| && ts[k] == r.value
                           && forall j :: 0 <= j < k ==> ts[j].id != id by {
        if r.Some? {
          var k :| 0 <= k < |ts[1..]| && ts[1..][k] == r.value
                   && forall j :: 0 <= j < k ==> ts[1..][j].id != id;
          assert ts[k + 1] == r.value;
          assert forall j :: 0 <= j < k + 1 ==> ts[j].id != id by {
            forall j | 0 <= j < k + 1 ensures ts[j].id != id {
              if j > 0 { assert ts[j] == ts[1..][j - 1]; }
            }
          }
        }
      }
      assert HasId(ts, id) ==> ts[0].id == id || HasId(ts[1..], id) by {
        if HasId(ts, id) {
          var k :| 0 <= k < |ts| && ts[k].id == id;
          if k > 0 {
            assert ts[1..][k - 1].id == id;
          }
        }
      }
      assert HasId(ts[1..], id) ==> HasId(ts, id) by {
        if HasId(ts[1..], id) {
          var k :| 0 <= k < |ts[1..]| && ts[1..][k].id == id;
          assert ts[k + 1].id == id;
        }
      }
      r
  }

  /** The ticket the board shows for the guest's live order. */
  function LiveTicket(items: seq<SmartCart.CartItem>, status: string, guestName: string,
                      tableNumber: string, now: int): BoardTicket
  {
    BoardTicket(LiveId, tableNumber, now, status, Some(guestName),
      seq(|items|, k requires 0 <= k < |items| => BoardItem(items[k].name, items[k].quantity, items[k].notes)))
  }

  /** The injection effect with the status the live ticket is given: with no
      live ticket yet, one is put in front; otherwise only the live ticket's
      status follows. */
  function Injected(ts: seq<BoardTicket>, items: seq<SmartCart.CartItem>, status: string,
                    guestName: string, tableNumber: string, now: int): seq<BoardTicket>
  {
    if !HasId(ts, LiveId) then [LiveTicket(items, status, guestName, tableNumber, now)] + ts
    else SetStatusWhere(ts, LiveId, status)
  }

  /** The live order goes in once: the first injection puts one live ticket
      in front of the others, and a second one only changes its status —
      the ids, in order, stay as they were, so there is still one. */
  lemma {:induction false} LiveOrderInsertedOnce(ts: seq<BoardTicket>, items: seq<SmartCart.CartItem>,
                                                 items2: seq<SmartCart.CartItem>, s1: string, s2: string,
                                                 guestName: string, tableNumber: string, t1: int, t2: int)
    requires !HasId(ts, LiveId)
    ensures var once := Injected(ts, items, s1, guestName, tableNumber, t1);
      && once == [LiveTicket(items, s1, guestName, tableNumber, t1)] + ts
      && var twice := Injected(once, items2, s2, guestName, tableNumber, t2);
      && |twice| == |once|
      && twice[0] == once[0].(status := s2)
      && twice[1..] == ts
  {
    var once := Injected(ts, items, s1, guestName, tableNumber, t1);
    assert once[0].id == LiveId;
    var twice := Injected(once, items2, s2, guestName, tableNumber, t2);
    assert twice == SetStatusWhere(once, LiveId, s2);
    forall k | 0 <= k < |ts|
      ensures twice[1..][k] == ts[k]
    {
      assert once[k + 1] == ts[k];
      assert ts[k].id != LiveId;
    }
  }

  /** The status the live ticket is given as written: the guest order's own
      status, unchanged. */
  function LiveStatusAsWritten(guestStatus: string): string { guestStatus }

  /** The status the live ticket is evidently meant to get: a freshly placed
      guest order is a new ticket for the chef. The board itself uses
      `LiveStatusAsWritten`. */
  function LiveStatus(guestStatus: string): string {
    if guestStatus == "placed" then "new" else guestStatus
  }

  /** As written, a guest order that has just been placed, with status
      "placed", lands on the board in neither the chef's view nor the
      waiter's. */
  lemma PlacedLiveOrderHidden(ts: seq<BoardTicket>, items: seq<SmartCart.CartItem>,
                              guestName: string, tableNumber: string, now: int)
    requires !HasId(ts, LiveId)
    ensures var r := Injected(ts, items, LiveStatusAsWritten("placed"), guestName, tableNumber, now);
      && r[0].id == LiveId
      && r[0] !in KitchenTickets(r) && r[0] !in ReadyTickets(r)
  {
    var r := Injected(ts, items, LiveStatusAsWritten("placed"), guestName, tableNumber, now);
    FilterMembership(r, InKitchenView, r[0]);
    FilterMembership(r, InReadyView, r[0]);
  }

  /** With the placed status read as new, the chef sees the live order as
      soon as it is pushed, and the other statuses pass through. */
  lemma PlacedLiveOrderShown(ts: seq<BoardTicket>, items: seq<SmartCart.CartItem>, guestStatus: string,
                             guestName: string, tableNumber: string, now: int)
    requires !HasId(ts, LiveId)
    ensures var r := Injected(ts, items, LiveStatus(guestStatus), guestName, tableNumber, now);
      && r[0].id == LiveId
      && (guestStatus == "placed" ==> r[0] in KitchenTickets(r))
      && (guestStatus != "placed" ==> r[0].status == guestStatus)
  {
    var r := Injected(ts, items, LiveStatus(guestStatus), guestName, tableNumber, now);
    FilterMembership(r, InKitchenView, r[0]);
  }

  // ---------------------------------------------------------------------
  // Analytics specification
  // ---------------------------------------------------------------------

  /** The menu price of a name, 0 when the menu has no such item. */
  function PriceOf(menu: seq<Menu.MenuItem>, name: string): int {
    var found := Menu.FindByName(menu, name);
    if found.Some? then found.value.price else 0
  }

  function TicketItems(t: BoardTicket): seq<BoardItem> { t.items }
  function ItemName(it: BoardItem): string { it.name }
  function ItemQuantity(it: BoardItem): int { it.quantity }

  /** Σ menu price × quantity over the lines. */
  function Revenue(menu: seq<Menu.MenuItem>, lines: seq<BoardItem>): int
    decreases |lines|
  {
    if lines == [] then 0
    else Revenue(menu, lines[..|lines| - 1]) + PriceOf(menu, lines[|lines| - 1].name) * lines[|lines| - 1].quantity
  }

  /** The best seller over a prefix of the tally: the name and count of the
      first entry whose count beats everything before it and every later
      entry; ("", 0) while no count is positive. */
  function BestOf(sales: seq<Sale>): (r: (string, int))
    decreases |sales|
  {
    if sales == [] then ("", 0)
    else
      var prev := BestOf(sales[..|sales| - 1]);
      var last := sales[|sales| - 1];
      if last.count > prev.1 then (last.name, last.count) else prev
  }

  /** The best seller has the greatest count, and it is the first entry with
      that count; with no positive count there is none (empty name, 0). */
  lemma {:induction false} BestOfSpec(sales: seq<Sale>)
    ensures BestOf(sales).1 >= 0
    ensures forall k :: 0 <= k < |sales| ==> sales[k].count <= BestOf(sales).1
    ensures BestOf(sales).1 == 0 ==> BestOf(sales).0 == ""
    ensures BestOf(sales).1 > 0 ==>
      exists k :: 0 <= k < |sales| && sales[k].name == BestOf(sales).0 && sales[k].count == BestOf(sales).1
        && forall j :: 0 <= j < k ==> sales[j].count < BestOf(sales).1
    decreases |sales|
  {
    if sales != [] {
      var init := sales[..|sales| - 1];
      BestOfSpec(init);
      var prev := BestOf(init);
      var last := sales[|sales| - 1];
      if last.count > prev.1 {
        assert forall j :: 0 <= j < |init| ==> sales[j].count <= prev.1 by {
          forall j | 0 <= j < |init| ensures sales[j].count <= prev.1 {
            assert sales[j] == init[j];
          }
        }
      } else {
        forall k | 0 <= k < |sales|
          ensures sales[k].count <= BestOf(sales).1
        {
          if k < |init| {
            assert sales[k] == init[k];
          }
        }
        if prev.1 > 0 {
          var k :| 0 <= k < |init| && init[k].name == prev.0 && init[k].count == prev.1
            && forall j :: 0 <= j < k ==> init[j].count < prev.1;
          assert sales[k] == init[k];
          assert forall j :: 0 <= j < k ==> sales[j] == init[j];
        }
      }
    }
  }

  /** `Math.round(revenue / orders)`, or 0 without orders. */
  function AverageOrderValue(revenue: int, orders: int): (a: int)
    requires orders >= 0
    ensures orders > 0 ==> (2 * a - 1) * orders <= 2 * revenue < (2 * a + 1) * orders
    ensures orders == 0 ==> a == 0
  {
    if orders > 0 then RoundDiv(revenue, orders) else 0
  }

  /** The report panel. */
  datatype Report = Report(
    revenue: int,
    orders: int,
    averageOrderValue: int,
    bestSeller: Option<(Menu.MenuItem, int)>,
    recent: seq<BoardTicket>)

  // ---------------------------------------------------------------------
  // Lemmas the analytics loop needs
  // ---------------------------------------------------------------------

  lemma RevenueSnoc(menu: seq<Menu.MenuItem>, lines: seq<BoardItem>, x: BoardItem)
    ensures Revenue(menu, lines + [x]) == Revenue(menu, lines) + PriceOf(menu, x.name) * x.quantity
  {
    assert (lines + [x])[..|lines|] == lines;
  }

  lemma BestOfSnoc(sales: seq<Sale>, k: nat)
    requires k < |sales|
    ensures BestOf(sales[..k + 1]) ==
      if sales[k].count > BestOf(sales[..k]).1 then (sales[k].name, sales[k].count) else BestOf(sales[..k])
  {
    assert sales[..k + 1][..k] == sales[..k];
  }

  /** The inner loop over one ticket's lines, continuing the running
      revenue and tally of the lines `done` before it. */
  method TallyLines(menu: seq<Menu.MenuItem>, done: seq<BoardItem>, items: seq<BoardItem>,
                    revenue0: int, sales0: seq<Sale>)
    returns (revenue: int, sales: seq<Sale>)
    requires revenue0 == Revenue(menu, done) && sales0 == Tallied(done, ItemName, ItemQuantity)
    ensures revenue == Revenue(menu, done + items) && sales == Tallied(done + items, ItemName, ItemQuantity)
  {
    revenue, sales := revenue0, sales0;
    assert done + items[..0] == done;
    for j := 0 to |items|
      invariant revenue == Revenue(menu, done + items[..j])
      invariant sales == Tallied(done + items[..j], ItemName, ItemQuantity)
    {
      assert done + items[..j + 1] == (done + items[..j]) + [items[j]];
      RevenueSnoc(menu, done + items[..j], items[j]);
      TalliedSnoc(done + items[..j], items[j], ItemName, ItemQuantity);
      revenue := revenue + PriceOf(menu, items[j].name) * items[j].quantity;
      sales := AddSale(sales, items[j].name, items[j].quantity);
    }
    assert items[..|items|] == items;
  }

  /** The best-seller pass over the tally: a later entry wins only with a
      strictly greater count. */
  method BestSeller(sales: seq<Sale>) returns (bestName: string, maxSold: int)
    ensures (bestName, maxSold) == BestOf(sales)
  {
    bestName, maxSold := "", 0;
    for k := 0 to |sales|
      invariant (bestName, maxSold) == BestOf(sales[..k])
    {
      BestOfSnoc(sales, k);
      if sales[k].count > maxSold {
        maxSold := sales[k].count;
        bestName := sales[k].name;
      }
    }
    assert sales[..|sales|] == sales;
  }

  // ---------------------------------------------------------------------
  // The board
  // ---------------------------------------------------------------------

  class Board {
    var tickets: seq<BoardTicket>
    var completed: seq<BoardTicket>
    var tasks: seq<ServiceTask>

    constructor (mockTickets: seq<BoardTicket>, mockCompleted: seq<BoardTicket>, mockTasks: seq<ServiceTask>)
      ensures tickets == mockTickets && completed == mockCompleted && tasks == mockTasks
    {
      tickets, completed, tasks := mockTickets, mockCompleted, mockTasks;
    }

    /** The injection effect for a guest order with items; `alerted` is
        the kitchen alert played when the live ticket is new. Guest name
        and table come with their defaults, "Guest" and "4". */
    method InjectLiveOrder(active: Option<ActiveOrder>, guestName: string, tableNumber: string, now: int)
      returns (alerted: bool)
      modifies this
      ensures alerted <==> active.Some? && active.value.items != [] && !HasId(old(tickets), LiveId)
      ensures tickets == if active.Some? && active.value.items != []
        then Injected(old(tickets), active.value.items, LiveStatusAsWritten(active.value.status), guestName, tableNumber, now)
        else old(tickets)
      ensures completed == old(completed) && tasks == old(tasks)
    {
      alerted := false;
      if active.Some? && active.value.items != [] {
        var status := LiveStatusAsWritten(active.value.status);
        if !HasId(tickets, LiveId) {
          alerted := true;
          tickets := [LiveTicket(active.value.items, status, guestName, tableNumber, now)] + tickets;
        } else {
          tickets := SetStatusWhere(tickets, LiveId, status);
        }
      }
    }

    /** `handleMarkReady`: only the tickets with that id become ready. */
    method MarkReady(ticketId: string)
      modifies this
      ensures |tickets| == |old(tickets)|
      ensures forall k :: 0 <= k < |tickets| ==>
        tickets[k] == if old(tickets)[k].id == ticketId then old(tickets)[k].(status := "ready") else old(tickets)[k]
      ensures completed == old(completed) && tasks == old(tasks)
    {
      tickets := SetStatusWhere(tickets, ticketId, "ready");
    }

    /** `handleMarkServed`: the first ticket with that id goes, as served,
        to the front of the history, and every ticket with that id leaves
        the open list; nothing happens when there is none. */
    method MarkServed(ticketId: string) returns (chimed: bool)
      modifies this
      ensures chimed <==> HasId(old(tickets), ticketId)
      ensures chimed ==> completed == [FindTicket(old(tickets), ticketId).value.(status := "served")] + old(completed)
      ensures chimed ==> tickets == Filter(old(tickets), (t: BoardTicket) => t.id != ticketId)
      ensures !chimed ==> tickets == old(tickets) && completed == old(completed)
      ensures !HasId(tickets, ticketId)
      ensures tasks == old(tasks)
    {
      var found := FindTicket(tickets, ticketId);
      chimed := found.Some?;
      if found.Some? {
        completed := [found.value.(status := "served")] + completed;
        tickets := Filter(tickets, (t: BoardTicket) => t.id != ticketId);
      }
    }

    /** `handleCompleteTask`: exactly the service tasks with that id are removed. */
    method CompleteTask(taskId: string)
      modifies this
      ensures tasks == Filter(old(tasks), (t: ServiceTask) => t.id != taskId)
      ensures forall t :: t in tasks <==> t in old(tasks) && t.id != taskId
      ensures tickets == old(tickets) && completed == old(completed)
    {
      tasks := Filter(tasks, (t: ServiceTask) => t.id != taskId);
      forall t
        ensures t in tasks <==> t in old(tasks) && t.id != taskId
      {
        FilterMembership(old(tasks), (t: ServiceTask) => t.id != taskId, t);
      }
    }

    /** `analyticsData`, computed as the screen does: one pass over the
        open and completed tickets adding up revenue and the sales tally,
        then one pass over the tally for the best seller. */
    method Analytics(menu: seq<Menu.MenuItem>) returns (report: Report)
      ensures var lines := Lines(tickets + completed, TicketItems);
        var best := BestOf(Tallied(lines, ItemName, ItemQuantity));
        && report.revenue == Revenue(menu, lines)
        && report.orders == |tickets| + |completed|
        && report.averageOrderValue == AverageOrderValue(report.revenue, report.orders)
        && report.bestSeller == (var found := Menu.FindByName(menu, best.0);
                                 if found.Some? then Some((found.value, best.1)) else None)
        && report.recent == completed[..if |completed| < 5 then |completed| else 5]
    {
      var all := tickets + completed;
      var revenue := 0;
      var sales: seq<Sale> := [];
      for i := 0 to |all|
        invariant revenue == Revenue(menu, Lines(all[..i], TicketItems))
        invariant sales == Tallied(Lines(all[..i], TicketItems), ItemName, ItemQuantity)
      {
        LinesAppendOne(all, i, TicketItems);
        revenue, sales := TallyLines(menu, Lines(all[..i], TicketItems), all[i].items, revenue, sales);
      }
      assert all[..|all|] == all;
      var bestName, maxSold := BestSeller(sales);
      var orders := |all|;
      var found := Menu.FindByName(menu, bestName);
      report := Report(revenue, orders, AverageOrderValue(revenue, orders),
                       if found.Some? then Some((found.value, maxSold)) else None,
                       completed[..if |completed| < 5 then |completed| else 5]);
    }
  }
}
