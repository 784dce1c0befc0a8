/** The waiters' screen (components/ServiceDashboard.tsx): the pickup and
    request lists it derives from the ticket feed, the age shown on each
    card, the icon and button label of a request, and the manual settle
    prompt. The current time and the prompt's answer are parameters. */
module ServiceDashboard {
  import opened Common
  import opened Tickets

  /** Food waiting at the pass: ready, and food (or untyped). */
  predicate IsPickup(t: Ticket) {
    t.status == Ready && IsFood(t)
  }

  /** A guest request still open: a request ticket not served, paid or
      cancelled. */
  predicate IsOpenRequest(t: Ticket) {
    IsRequest(t) && t.status != Served && t.status != Paid && t.status != Cancelled
  }

  function ReadyForPickup(tickets: seq<Ticket>): seq<Ticket> {
    Filter(tickets, IsPickup)
  }

  function ServiceRequests(tickets: seq<Ticket>): seq<Ticket> {
    Filter(tickets, IsOpenRequest)
  }

  /** The two lists hold exactly the tickets their tests select, in feed
      order, and no ticket is on both: a request ticket is never food. */
  lemma ListsSpec(tickets: seq<Ticket>)
    ensures forall t :: t in ReadyForPickup(tickets) <==> t in tickets && t.status == Ready && IsFood(t)
    ensures forall t :: t in ServiceRequests(tickets) <==>
      t in tickets && t.kind == Some("request") && t.status in {Placed, Cooking, Ready}
    ensures forall t :: !(t in ReadyForPickup(tickets) && t in ServiceRequests(tickets))
  {
    forall t
      ensures t in ReadyForPickup(tickets) <==> t in tickets && t.status == Ready && IsFood(t)
      ensures t in ServiceRequests(tickets) <==>
        t in tickets && t.kind == Some("request") && t.status in {Placed, Cooking, Ready}
    {
      FilterMembership(tickets, IsPickup, t);
      FilterMembership(tickets, IsOpenRequest, t);
    }
  }

  /** `getElapsedMinutes`: whole minutes since creation, rounded down (a
      ticket created in the future shows a negative age). */
  function ElapsedMinutes(now: int, createdAt: int): (m: int)
    ensures m * 60000 <= now - createdAt < (m + 1) * 60000
  {
    (now - createdAt) / 60000
  }

  /** Only one number of minutes fits those bounds, so the age is the floor
      of the elapsed milliseconds over a minute. */
  lemma ElapsedMinutesUnique(now: int, createdAt: int, m: int)
    requires m * 60000 <= now - createdAt < (m + 1) * 60000
    ensures m == ElapsedMinutes(now, createdAt)
  {
    var e := ElapsedMinutes(now, createdAt);
    if m < e {
      MulMonotone(m + 1, e, 60000);
    } else if m > e {
      MulMonotone(e + 1, m, 60000);
    }
  }

  /** The request card's icon. */
  datatype Icon = Droplets | FileText | TrashCan | BellIcon

  /** The name the icon is chosen by: the first item's, or "Request" when
      there is none (or it is empty). */
  function TaskName(items: seq<OrderItem>): string {
    if items == [] || items[0].name == "" then "Request" else items[0].name
  }

  /** `getTaskIcon`: water, then bill, then cleaning, else a bell. */
  function TaskIcon(items: seq<OrderItem>): Icon {
    var name := TaskName(items);
    if Contains(name, "Water") then Droplets
    else if Contains(name, "Bill") then FileText
    else if Contains(name, "Clean") then TrashCan
    else BellIcon
  }

  /** The action button's label: closing the bill exactly when the first
      item's name mentions "Bill"; a ticket without items is "Mark Done". */
  function ActionLabel(items: seq<OrderItem>): string {
    if items != [] && Contains(items[0].name, "Bill") then "Mark Paid & Close" else "Mark Done"
  }

  /** A request without items shows the bell. */
  lemma EmptyRequestRings(items: seq<OrderItem>, r: string)
    requires items == [] && r == "Request"
    ensures TaskName(items) == r
    ensures TaskIcon(items) == BellIcon
  {
    NotContained(r, "Water");
    NotContained(r, "Bill");
    NotContained(r, "Clean");
  }

  /** A string none of whose characters is the first of `t` does not
      contain `t`. */
  lemma NotContained(s: string, t: string)
    requires t != [] && forall k :: 0 <= k < |s| ==> s[k] != t[0]
    ensures !Contains(s, t)
  {
    if Contains(s, t) {
      ContainsFirstChar(s, t);
    }
  }

  /** The label and the icon agree on bills, except that water comes first:
      a "Mark Paid & Close" card shows the bill icon or, when its name also
      mentions water, the droplets; a bill icon always comes with that
      label. */
  lemma LabelMatchesIcon(items: seq<OrderItem>)
    ensures ActionLabel(items) == "Mark Paid & Close" ==> TaskIcon(items) in {Droplets, FileText}
    ensures TaskIcon(items) == FileText && items != [] ==> ActionLabel(items) == "Mark Paid & Close"
  {
    if items != [] && items[0].name == "" {
      NotContained(TaskName(items), "Bill");
    }
  }

  /** `handleManualSettle`: the table id entered in the prompt (absent when
      it was cancelled) is settled only when it is not empty and a settle
      handler is wired; the result is the call made, if any. */
  function ManualSettle(entered: Option<string>, hasHandler: bool): (call: Option<string>)
    ensures call.Some? <==> entered.Some? && entered.value != "" && hasHandler
    ensures call.Some? ==> call == entered
  {
    if entered.Some? && entered.value != "" && hasHandler then entered else None
  }
}
