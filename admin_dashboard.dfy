/** The owner's menu editor (components/AdminDashboard.tsx): sales figures
    over the paid orders it fetches, and the menu list it edits through the
    API, with the add-item form and its tag input. Each API call is an
    oracle parameter: its result, or `None` / `false` when it throws. */
module AdminDashboard {
  import opened Common
  import opened Tickets
  import opened Menu
  import Backend

  // ---------------------------------------------------------------------
  // Analytics
  // ---------------------------------------------------------------------

  /** The amount an order adds to the revenue. The backend always sends a
      total; an order without one counts 0 here. */
  function Amount(o: Ticket): real {
    if o.totalAmount.Some? then o.totalAmount.value else 0.0
  }

  datatype Analytics = Analytics(revenue: real, orderCount: nat)

  /** `analytics`: the fetched list is trusted to hold paid orders only. */
  function AnalyticsOf(orders: seq<Ticket>): Analytics {
    Analytics(RealSumOf(orders, Amount), |orders|)
  }

  /** Σ total over the stored orders that are paid. */
  function PaidTotal(docs: seq<Backend.OrderDoc>): real {
    if docs == [] then 0.0
    else (if docs[0].status == Paid then docs[0].totalAmount else 0.0) + PaidTotal(docs[1..])
  }

  function PaidCount(docs: seq<Backend.OrderDoc>): nat {
    if docs == [] then 0 else (if docs[0].status == Paid then 1 else 0) + PaidCount(docs[1..])
  }

  /** Every paid order the store holds, selected by the `paid` filter,
      adds up to the paid revenue and count. */
  lemma {:induction false} AnalyticsOfPaidMatching(docs: seq<Backend.OrderDoc>)
    ensures AnalyticsOf(Backend.Matching(docs, Some("paid"))) == Analytics(PaidTotal(docs), PaidCount(docs))
  {
    if docs != [] {
      AnalyticsOfPaidMatching(docs[1..]);
      assert Backend.StatusText(docs[0].status) == "paid" <==> docs[0].status == Paid;
    }
  }

  /** Fetched with the `paid` filter, the figures are the revenue and the
      number of the store's paid orders, as long as there are no more of
      them than the listing returns; beyond that the count stops at the
      listing's limit. */
  lemma AnalyticsOfPaidOrders(docs: seq<Backend.OrderDoc>)
    ensures PaidCount(docs) <= Backend.ListLimit ==>
      AnalyticsOf(Backend.ListOrders(docs, Some("paid"))) == Analytics(PaidTotal(docs), PaidCount(docs))
    ensures PaidCount(docs) > Backend.ListLimit ==>
      AnalyticsOf(Backend.ListOrders(docs, Some("paid"))).orderCount == Backend.ListLimit
  {
    AnalyticsOfPaidMatching(docs);
  }

  // ---------------------------------------------------------------------
  // The add-item form
  // ---------------------------------------------------------------------

  /** The form's fields (`Partial<MenuItem>`). */
  datatype Draft = Draft(
    name: string,
    description: string,
    price: int,
    category: string,
    image: string,
    isAvailable: bool,
    tags: seq<string>,
    dietaryType: string,
    spiceLevel: string)

  const BlankDraft := Draft("", "", 0, "Mains", "", true, [], "veg", "medium")

  /** `!newItem.name || !newItem.price`: a name and a non-zero price are
      needed. */
  predicate Refused(d: Draft) { d.name == "" || d.price == 0 }

  /** The tag list after `addTag`: the trimmed input at the end, unless it
      is blank. */
  function WithTag(tags: seq<string>, input: string): (r: seq<string>)
    ensures Trim(input) == "" ==> r == tags
    ensures Trim(input) != "" ==> |r| == |tags| + 1 && r[..|tags|] == tags && r[|tags|] == Trim(input)
  {
    if Trim(input) != "" then tags + [Trim(input)] else tags
  }

  /** A tag added by `addTag` never has blanks at its ends, so the tag list
      of a form filled only through it holds no blank or padded tag. */
  lemma AddedTagsTrimmed(tags: seq<string>, input: string)
    requires forall k :: 0 <= k < |tags| ==> tags[k] != "" && Trim(tags[k]) == tags[k]
    ensures forall k :: 0 <= k < |WithTag(tags, input)| ==>
      WithTag(tags, input)[k] != "" && Trim(WithTag(tags, input)[k]) == WithTag(tags, input)[k]
  {
    if Trim(input) != "" {
      TrimEnds(input);
      TrimNoSpace(Trim(input));
    }
  }

  /** Removing a tag (the chip's ✕) drops every copy of it and keeps the
      others in order. */
  lemma RemoveTagSpec(tags: seq<string>, tag: string)
    ensures forall t :: t in Filter(tags, Other(tag)) <==> t in tags && t != tag
  {
    forall t
      ensures t in Filter(tags, Other(tag)) <==> t in tags && t != tag
    {
      FilterMembership(tags, Other(tag), t);
    }
  }

  // ---------------------------------------------------------------------
  // The screen's state
  // ---------------------------------------------------------------------

  class Admin {
    var orders: seq<Ticket>
    var menuItems: seq<MenuItem>
    var loading: bool
    var showAddModal: bool
    var draft: Draft
    var tagInput: string

    constructor ()
      ensures orders == [] && menuItems == [] && loading && !showAddModal
      ensures draft == BlankDraft && tagInput == ""
    {
      orders, menuItems, loading, showAddModal := [], [], true, false;
      draft, tagInput := BlankDraft, "";
    }

    /** `fetchData`: the paid orders first, then the menu; a failure skips
        whatever comes after it. */
    method FetchData(fetchedOrders: Option<seq<Ticket>>, fetchedMenu: Option<seq<MenuItem>>)
      modifies this
      ensures orders == if fetchedOrders.Some? then fetchedOrders.value else old(orders)
      ensures menuItems == if fetchedOrders.Some? && fetchedMenu.Some? then fetchedMenu.value else old(menuItems)
      ensures !loading
      ensures showAddModal == old(showAddModal) && draft == old(draft) && tagInput == old(tagInput)
    {
      loading := true;
      if fetchedOrders.Some? {
        orders := fetchedOrders.value;
        if fetchedMenu.Some? {
          menuItems := fetchedMenu.value;
        }
      }
      loading := false;
    }

    /** `handleToggleAvailability`: after the call succeeds, the items with
        that id flip availability; on failure an alert and no change. */
    method ToggleAvailability(id: string, succeeded: bool) returns (alerted: bool)
      modifies this
      ensures alerted == !succeeded
      ensures menuItems == if succeeded then ToggledAvailability(old(menuItems), id) else old(menuItems)
      ensures orders == old(orders) && loading == old(loading) && showAddModal == old(showAddModal)
      ensures draft == old(draft) && tagInput == old(tagInput)
    {
      alerted := false;
      if succeeded {
        menuItems := ToggledAvailability(menuItems, id);
      } else {
        alerted := true;
      }
    }

    /** `handleDeleteItem`: nothing unless confirmed (and then no call is
        made); after a successful call the items with that id are gone. */
    method DeleteItem(id: string, confirmed: bool, succeeded: bool) returns (called: bool, alerted: bool)
      modifies this
      ensures called == confirmed
      ensures alerted == (confirmed && !succeeded)
      ensures menuItems == if confirmed && succeeded then WithoutId(old(menuItems), id) else old(menuItems)
      ensures orders == old(orders) && loading == old(loading) && showAddModal == old(showAddModal)
      ensures draft == old(draft) && tagInput == old(tagInput)
    {
      called, alerted := false, false;
      if !confirmed {
        return;
      }
      called := true;
      if succeeded {
        menuItems := WithoutId(menuItems, id);
      } else {
        alerted := true;
      }
    }

    /** `handleAddItem`: a form without name or price is refused with an
        alert and no call; otherwise the draft is sent, and the created item
        (the call's result) is appended, the modal closed and the form
        reset. A failed call alerts and keeps everything. */
    method AddItem(created: Option<MenuItem>) returns (sent: Option<Draft>, alerted: bool)
      modifies this
      ensures sent.Some? <==> !Refused(old(draft))
      ensures sent.Some? ==> sent.value == old(draft)
      ensures alerted <==> Refused(old(draft)) || created.None?
      ensures if sent.Some? && created.Some?
        then menuItems == old(menuItems) + [created.value] && !showAddModal
             && draft == BlankDraft && tagInput == ""
        else menuItems == old(menuItems) && showAddModal == old(showAddModal)
             && draft == old(draft) && tagInput == old(tagInput)
      ensures orders == old(orders) && loading == old(loading)
    {
      sent, alerted := None, false;
      if Refused(draft) {
        alerted := true;
        return;
      }
      sent := Some(draft);
      if created.None? {
        alerted := true;
        return;
      }
      menuItems := menuItems + [created.value];
      showAddModal := false;
      draft := BlankDraft;
      tagInput := "";
    }

    /** `addTag`: a non-blank input is added trimmed and cleared; a blank
        one is left as it is. */
    method AddTag()
      modifies this
      ensures draft == old(draft).(tags := WithTag(old(draft).tags, old(tagInput)))
      ensures tagInput == if Trim(old(tagInput)) != "" then "" else old(tagInput)
      ensures orders == old(orders) && menuItems == old(menuItems)
      ensures loading == old(loading) && showAddModal == old(showAddModal)
    {
      if Trim(tagInput) != "" {
        draft := draft.(tags := draft.tags + [Trim(tagInput)]);
        tagInput := "";
      }
    }

    /** The tag chip's remove button. */
    method RemoveTag(tag: string)
      modifies this
      ensures draft == old(draft).(tags := Filter(old(draft).tags, Other(tag)))
      ensures tagInput == old(tagInput) && orders == old(orders) && menuItems == old(menuItems)
      ensures loading == old(loading) && showAddModal == old(showAddModal)
    {
      draft := draft.(tags := Filter(draft.tags, Other(tag)));
    }
  }
}
