/** The order ("ticket") record as the backend serialises it and as every
    client screen reads it, with the item and status vocabulary shared by
    the backend routes and the dashboards. */
module Tickets {
  import opened Common

  /** Order-level status. `Cooking` appears only in the client's type. */
  datatype OrderStatus = Placed | Cooking | Ready | Served | Paid | Cancelled

  /** Item-level status; an item stored without one counts as pending. */
  datatype ItemStatus = ItemPending | ItemReady | ItemServed | ItemOther(text: string)

  /** One ordered line. Money is in rupees; the backend keeps it as a
      float, modelled here as an exact `real`. */
  datatype OrderItem = OrderItem(
    name: string,
    price: real,
    quantity: int,
    notes: string,
    status: Option<ItemStatus>)

  /** The order as the client receives it. `kind` is the `type` field
      ("food" or "request"), which older records may lack. `createdAt` is
      the creation instant in milliseconds. */
  datatype Ticket = Ticket(
    id: string,
    tableId: int,
    createdAt: int,
    status: OrderStatus,
    kind: Option<string>,
    guestName: Option<string>,
    items: seq<OrderItem>,
    totalAmount: Option<real>)

  /** The status an item is treated as having (`item.get('status', 'pending')`). */
  function EffectiveStatus(it: OrderItem): ItemStatus {
    it.status.GetOr(ItemPending)
  }

  /** `!t.type || t.type === 'food'`: a food ticket, including records with
      no type at all. */
  predicate IsFood(t: Ticket) {
    t.kind == None || t.kind == Some("") || t.kind == Some("food")
  }

  predicate IsRequest(t: Ticket) {
    t.kind == Some("request")
  }

  /** An order still occupying its table: neither paid nor cancelled. */
  predicate IsActive(s: OrderStatus) {
    s != Paid && s != Cancelled
  }

  function LineTotal(it: OrderItem): real {
    it.price * it.quantity as real
  }

  /** Σ price × quantity over the items. */
  function ItemsSubtotal(items: seq<OrderItem>): real {
    RealSumOf(items, LineTotal)
  }
}
