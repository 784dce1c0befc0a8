/** The kitchen's screen (components/KitchenDisplay.tsx): which tickets the
    cooks see, in which order, and how each item row is drawn. */
module KitchenDisplay {
  import opened Common
  import opened Tickets

  /** A ticket the cooks must act on: placed, and food (or untyped). */
  predicate ShownInKitchen(t: Ticket) {
    t.status == Placed && IsFood(t)
  }

  function CreatedAt(t: Ticket): int { t.createdAt }

  /** `kitchenOrders`: the shown tickets, oldest first. */
  function KitchenOrders(tickets: seq<Ticket>): seq<Ticket> {
    SortBy(Filter(tickets, ShownInKitchen), CreatedAt)
  }

  /** The screen lists every placed food ticket exactly as often as it occurs
      in the feed and nothing else, oldest first. */
  lemma KitchenOrdersSpec(tickets: seq<Ticket>)
    ensures SortedBy(KitchenOrders(tickets), CreatedAt)
    ensures forall i, j :: 0 <= i < j < |KitchenOrders(tickets)| ==>
      KitchenOrders(tickets)[i].createdAt <= KitchenOrders(tickets)[j].createdAt
    ensures forall t :: t in KitchenOrders(tickets) <==> t in tickets && t.status == Placed && IsFood(t)
    ensures forall t ::
      multiset(KitchenOrders(tickets))[t] == if ShownInKitchen(t) then multiset(tickets)[t] else 0
  {
    var shown := Filter(tickets, ShownInKitchen);
    var r := KitchenOrders(tickets);
    assert multiset(r) == multiset(shown);
    forall t
      ensures t in r <==> t in tickets && t.status == Placed && IsFood(t)
    {
      FilterMembership(tickets, ShownInKitchen, t);
      assert t in r <==> t in multiset(r);
      assert t in shown <==> t in multiset(shown);
    }
    forall t
      ensures multiset(r)[t] == if ShownInKitchen(t) then multiset(tickets)[t] else 0
    {
      FilterCount(tickets, ShownInKitchen, t);
    }
  }

  /** How an item row is drawn: greyed out and marked "Served", or with the
      "New" badge; the notes warning appears when there are notes. */
  datatype ItemRow = ItemRow(greyed: bool, newBadge: bool, servedMark: bool, warning: Option<string>)

  function ItemRowOf(it: OrderItem): ItemRow {
    var served := it.status == Some(ItemServed);
    ItemRow(served, !served, served, if it.notes != "" then Some(it.notes) else None)
  }

  /** A card: the item rows, and the id the Mark Ready button sends. */
  datatype Card = Card(rows: seq<ItemRow>, markReadyId: string)

  function CardOf(t: Ticket): (c: Card)
    ensures |c.rows| == |t.items|
  {
    Card(seq(|t.items|, k requires 0 <= k < |t.items| => ItemRowOf(t.items[k])), t.id)
  }

  /** Each row is greyed exactly when its item is stored as served (an item
      without a status is not), every other row carries the "New" badge, and
      the button marks the card's own ticket. */
  lemma CardRows(t: Ticket)
    ensures forall k :: 0 <= k < |t.items| ==>
      && (CardOf(t).rows[k].greyed <==> t.items[k].status == Some(ItemServed))
      && (CardOf(t).rows[k].newBadge <==> !CardOf(t).rows[k].greyed)
      && CardOf(t).rows[k].servedMark == CardOf(t).rows[k].greyed
      && (CardOf(t).rows[k].warning.Some? <==> t.items[k].notes != "")
    ensures CardOf(t).markReadyId == t.id
  {
  }
}
