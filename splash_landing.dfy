/** The guest's entry screen (components/SplashLanding.tsx): phone-number
    formatting and the ten-digit check, which view the guest sees (landing,
    menu, tracker, payment) and how session and order status move it, the
    items the tracker and payment screens list, and the full reset after
    payment. Network replies are parameters. */
module SplashLanding {
  import opened Common
  import opened Tickets
  import opened SmartCart
  import RestaurantContext
  import Backend
  import Payment
  import App

  // ---------------------------------------------------------------------
  // Phone number
  // ---------------------------------------------------------------------

  /** The digits of the input, at most the first ten. */
  function FirstDigits(value: string): (r: string)
    ensures |r| <= 10 && |r| <= |DigitsOf(value)| && r == DigitsOf(value)[..|r|]
    ensures |DigitsOf(value)| <= 10 ==> r == DigitsOf(value)
  {
    var d := DigitsOf(value);
    if |d| <= 10 then d else d[..10]
  }

  /** `formatPhoneNumber`: digits only, at most ten, with one space after
      the fifth when there are more than five. */
  function FormatPhoneNumber(value: string): string {
    if value == "" then value
    else
      var t := FirstDigits(value);
      if |t| <= 5 then t else t[..5] + " " + t[5..]
  }

  /** What formatting keeps: the first ten digits, in order, and nothing
      else but the one space, which sits after the fifth digit. */
  lemma FormattedPhone(value: string)
    ensures var r, t := FormatPhoneNumber(value), FirstDigits(value);
      && DigitsOf(r) == t
      && (|t| <= 5 ==> r == t)
      && (|t| > 5 ==> |r| == |t| + 1 && r[5] == ' ' && r[..5] == t[..5] && r[6..] == t[5..])
  {
    var t := FirstDigits(value);
    KeepCharsAll(t, IsDigit);
    if value != "" && |t| > 5 {
      var a, b := t[..5], t[5..];
      KeepCharsAll(a, IsDigit);
      KeepCharsAll(b, IsDigit);
      KeepCharsAppend(a + " ", b, IsDigit);
      KeepCharsAppend(a, " ", IsDigit);
      assert a + b == t;
    }
  }

  /** Formatting what is already formatted changes nothing, so formatting
      on every keystroke is stable. */
  lemma FormatPhoneIdempotent(value: string)
    ensures FormatPhoneNumber(FormatPhoneNumber(value)) == FormatPhoneNumber(value)
  {
    var r := FormatPhoneNumber(value);
    if r != "" {
      FormattedPhone(value);
      assert FirstDigits(r) == FirstDigits(value);
    }
  }

  /** The submit check: exactly ten digits. */
  predicate TenDigits(phone: string) {
    |DigitsOf(phone)| == 10
  }

  /** A formatted entry passes the check exactly when the guest typed at
      least ten digits. */
  lemma FormattedPassesCheck(value: string)
    ensures TenDigits(FormatPhoneNumber(value)) <==> |DigitsOf(value)| >= 10
  {
    if value != "" {
      FormattedPhone(value);
    }
  }

  // ---------------------------------------------------------------------
  // Views and lists
  // ---------------------------------------------------------------------

  /** The first view: the session's own view, else the menu with a session,
      else the landing page. */
  function InitialView(session: Option<RestaurantContext.GuestSession>): (v: string)
    ensures v != ""
    ensures session.None? ==> v == "landing"
    ensures session.Some? && session.value.view != "" ==> v == session.value.view
    ensures session.Some? && session.value.view == "" ==> v == "menu"
  {
    if session.Some? && session.value.view != "" then session.value.view
    else if session.Some? then "menu"
    else "landing"
  }

  /** `fullOrderItems`: the server order's items when it has any, else the
      items this screen last placed. */
  function FullOrderItems(guestOrder: Option<Ticket>, activeItems: seq<Payment.ReceiptLine>)
    : seq<Payment.ReceiptLine>
  {
    if guestOrder.Some? && |guestOrder.value.items| > 0 then Payment.ServerLines(guestOrder.value.items)
    else activeItems
  }

  /** The list handed to the payment screen keeps every server item, in
      order, when there are any; otherwise it is the local list unchanged. */
  lemma FullOrderItemsSource(guestOrder: Option<Ticket>, activeItems: seq<Payment.ReceiptLine>)
    ensures var r := FullOrderItems(guestOrder, activeItems);
      && (guestOrder.Some? && |guestOrder.value.items| > 0 ==>
            |r| == |guestOrder.value.items|
            && forall k :: 0 <= k < |r| ==>
                 r[k].name == guestOrder.value.items[k].name && r[k].price == guestOrder.value.items[k].price
                 && r[k].quantity == guestOrder.value.items[k].quantity)
      && (guestOrder.None? || guestOrder.value.items == [] ==> r == activeItems)
  {
  }

  /** The order's items as restored into the local list. */
  function RestoredLines(items: seq<OrderItem>): (r: seq<Payment.ReceiptLine>)
    ensures |r| == |items|
    ensures forall k :: 0 <= k < |r| ==>
      r[k] == Payment.ReceiptLine("restored-" + DecimalText(k), "uk", items[k].name, items[k].price,
                                  items[k].quantity, "Mains", Some(items[k].notes))
  {
    seq(|items|, k requires 0 <= k < |items| =>
      Payment.ReceiptLine("restored-" + DecimalText(k), "uk", items[k].name, items[k].price,
                          items[k].quantity, "Mains", Some(items[k].notes)))
  }

  /** The status the tracker shows: paid on the thank-you screen, else the
      guest order's, with `placed` when there is none. */
  function TrackerStatus(showThankYou: bool, guestOrderStatus: Option<OrderStatus>): (s: OrderStatus)
    ensures showThankYou ==> s == Paid
    ensures !showThankYou && guestOrderStatus.Some? ==> s == guestOrderStatus.value
    ensures !showThankYou && guestOrderStatus.None? ==> s == Placed
  {
    if showThankYou then Paid else guestOrderStatus.GetOr(Placed)
  }

  /** A stored guest name that the start-up effect greets: present, not
      empty and not the placeholder "Guest". */
  predicate ReturningName(storedName: Option<string>) {
    storedName.Some? && storedName.value != "" && storedName.value != "Guest"
  }

  /** What `api.getSession` hands the screen: the backend's reply when it
      is a 2xx, and `{active: false}` for an error status or a fetch that
      threw (`None`). */
  function SessionSeen(reply: Option<Backend.Outcome<Backend.SessionReply>>): (r: Backend.SessionReply)
    ensures r.Active? <==> reply.Some? && reply.value.Ok? && reply.value.value.Active?
    ensures r.Active? ==> r == reply.value.value
  {
    if reply.Some? && reply.value.Ok? then reply.value.value else Backend.Inactive
  }

  /** Everything in the context except its view is as it was. */
  twostate predicate ContextKept(ctx: RestaurantContext.Restaurant)
    reads ctx
  {
    ctx.tickets == old(ctx.tickets) && ctx.menuItems == old(ctx.menuItems)
    && ctx.menuError == old(ctx.menuError) && ctx.isOffline == old(ctx.isOffline)
    && ctx.isAppLoading == old(ctx.isAppLoading) && ctx.isAudioEnabled == old(ctx.isAudioEnabled)
    && ctx.prevOrderCount == old(ctx.prevOrderCount) && ctx.user == old(ctx.user)
    && ctx.customerName == old(ctx.customerName) && ctx.tableId == old(ctx.tableId)
    && ctx.storage == old(ctx.storage)
  }

  // ---------------------------------------------------------------------
  // The screen's state
  // ---------------------------------------------------------------------

  /** The login form's part of the state. */
  datatype LoginForm = LoginForm(countryCode: string, phoneNumber: string, error: bool,
                                 isLoading: bool, verifiedPhone: string, isReturningUser: bool)

  const BlankForm := LoginForm("+91", "", false, false, "", false)

  /** The local-storage key of the cached preferences. */
  const PrefsKey := "userPrefs"

  class Landing {
    var currentView: string
    var guestName: string
    var tableNumber: string
    var form: LoginForm
    var activeItems: seq<Payment.ReceiptLine>
    var showThankYou: bool

    /** The first render, from the context's session. */
    constructor (session: Option<RestaurantContext.GuestSession>)
      ensures currentView == InitialView(session)
      ensures guestName == (if session.Some? && session.value.name != "" then session.value.name else "Guest")
      ensures tableNumber == (if session.Some? && session.value.tableId != "" then session.value.tableId else "4")
      ensures form == BlankForm && activeItems == [] && !showThankYou
    {
      currentView := InitialView(session);
      guestName := if session.Some? && session.value.name != "" then session.value.name else "Guest";
      tableNumber := if session.Some? && session.value.tableId != "" then session.value.tableId else "4";
      form := BlankForm;
      activeItems := [];
      showThankYou := false;
    }

    /** The phone input: ignored while loading; otherwise the formatted
        text, and any error cleared. */
    method InputChange(value: string)
      modifies this
      ensures old(form.isLoading) ==> form == old(form)
      ensures !old(form.isLoading) ==>
        form == old(form).(phoneNumber := FormatPhoneNumber(value), error := false)
      ensures currentView == old(currentView) && guestName == old(guestName)
      ensures tableNumber == old(tableNumber) && activeItems == old(activeItems)
      ensures showThankYou == old(showThankYou)
    {
      if form.isLoading {
        return;
      }
      form := form.(phoneNumber := FormatPhoneNumber(value), error := false);
    }

    /** The check at the head of `validateAndSubmit`: without exactly ten
        digits the error is set and nothing is sent; with them the full
        number ("+91 9876543210") is what the login continues with. */
    method SubmitCheck() returns (fullNumber: Option<string>)
      modifies this
      ensures !TenDigits(old(form.phoneNumber)) ==>
        fullNumber == None && form == old(form).(error := true)
      ensures TenDigits(old(form.phoneNumber)) ==>
        fullNumber == Some(old(form.countryCode) + " " + DigitsOf(old(form.phoneNumber)))
        && form == old(form).(isLoading := true, verifiedPhone := fullNumber.value)
      ensures currentView == old(currentView) && guestName == old(guestName)
      ensures tableNumber == old(tableNumber) && activeItems == old(activeItems)
      ensures showThankYou == old(showThankYou)
    {
      var raw := DigitsOf(form.phoneNumber);
      if |raw| != 10 {
        form := form.(error := true);
        return None;
      }
      form := form.(isLoading := true);
      var number := form.countryCode + " " + raw;
      form := form.(verifiedPhone := number);
      fullNumber := Some(number);
    }

    /** The effect on a new order status: `served` brings the guest to the
        tracker from wherever they are. */
    method OnStatusChanged(status: Option<OrderStatus>)
      modifies this
      ensures currentView == if status == Some(Served) then "tracker" else old(currentView)
      ensures guestName == old(guestName) && tableNumber == old(tableNumber) && form == old(form)
      ensures activeItems == old(activeItems) && showThankYou == old(showThankYou)
    {
      if status == Some(Served) {
        currentView := "tracker";
      }
    }

    /** The effect on a view change: a served order moves the menu to the
        tracker. */
    method OnViewChanged(status: Option<OrderStatus>)
      modifies this
      ensures currentView ==
        if status == Some(Served) && old(currentView) == "menu" then "tracker" else old(currentView)
      ensures guestName == old(guestName) && tableNumber == old(tableNumber) && form == old(form)
      ensures activeItems == old(activeItems) && showThankYou == old(showThankYou)
    {
      if status == Some(Served) && currentView == "menu" {
        currentView := "tracker";
      }
    }

    /** The effect on a new `guestSession`: a session brings its name and
        table, and moves the landing page to the session's view (or the
        menu); no session forces the landing page. */
    method OnSessionChanged(session: Option<RestaurantContext.GuestSession>)
      modifies this
      ensures session.None? ==>
        currentView == "landing" && guestName == old(guestName) && tableNumber == old(tableNumber)
      ensures session.Some? ==>
        guestName == session.value.name && tableNumber == session.value.tableId
        && currentView == (if old(currentView) != "landing" then old(currentView)
                           else if session.value.view != "" then session.value.view else "menu")
      ensures form == old(form) && activeItems == old(activeItems) && showThankYou == old(showThankYou)
    {
      if session.Some? {
        guestName := session.value.name;
        tableNumber := session.value.tableId;
        if currentView == "landing" && session.value.view != "" {
          currentView := session.value.view;
        } else if currentView == "landing" {
          currentView := "menu";
        }
      } else {
        if currentView != "landing" {
          currentView := "landing";
        }
      }
    }

    /** The first two steps of the start-up effect: a `table` URL
        parameter (empty when absent) sets the table, and a stored guest
        name other than "Guest" is greeted as a returning guest. The
        result is the table the session check then looks up: the
        parameter, else the table of the first render, and no lookup
        when both are empty. */
    method DetectTableAndName(tableParam: string, storedName: Option<string>) returns (lookup: Option<string>)
      modifies this
      ensures tableNumber == if tableParam != "" then tableParam else old(tableNumber)
      ensures ReturningName(storedName) ==>
        guestName == storedName.value && form == old(form).(isReturningUser := true)
      ensures !ReturningName(storedName) ==> guestName == old(guestName) && form == old(form)
      ensures lookup.Some? <==> tableParam != "" || old(tableNumber) != ""
      ensures lookup.Some? ==> lookup.value == if tableParam != "" then tableParam else old(tableNumber)
      ensures currentView == old(currentView) && activeItems == old(activeItems)
      ensures showThankYou == old(showThankYou)
    {
      var first := tableNumber;
      if tableParam != "" {
        tableNumber := tableParam;
      }
      if storedName.Some? && storedName.value != "" && storedName.value != "Guest" {
        guestName := storedName.value;
        form := form.(isReturningUser := true);
      }
      var tId := if tableParam != "" then tableParam else first;
      lookup := if tId == "" then None else Some(tId);
    }

    /** Session recovery at start-up: an active table session on the
        backend forces the tracker and takes its guest name. A rejected
        or failed lookup (`None`: the fetch itself threw) reads as
        inactive. */
    method RecoverSession(reply: Option<Backend.Outcome<Backend.SessionReply>>)
      modifies this
      ensures SessionSeen(reply).Active? ==>
        currentView == "tracker"
        && guestName == (if reply.value.value.guestName.Some? && reply.value.value.guestName.value != ""
                         then reply.value.value.guestName.value else "Guest")
        && form == old(form).(isReturningUser := true, verifiedPhone := "RECOVERED")
      ensures SessionSeen(reply).Inactive? ==>
        currentView == old(currentView) && guestName == old(guestName) && form == old(form)
      ensures tableNumber == old(tableNumber) && activeItems == old(activeItems)
      ensures showThankYou == old(showThankYou)
    {
      var session := SessionSeen(reply);
      if session.Active? {
        guestName := if session.guestName.Some? && session.guestName.value != "" then session.guestName.value
                     else "Guest";
        form := form.(isReturningUser := true, verifiedPhone := "RECOVERED");
        currentView := "tracker";
      }
    }

    /** The whole start-up effect against the backend's stored orders
        (`None` when the server cannot be reached): the session of the
        detected table recovers the tracker exactly when that table has
        an open order there. */
    method StartUp(tableParam: string, storedName: Option<string>, server: Option<seq<Backend.OrderDoc>>)
      returns (lookup: Option<string>)
      modifies this
      ensures lookup.Some? <==> tableParam != "" || old(tableNumber) != ""
      ensures lookup.Some? ==> lookup.value == tableNumber
      ensures tableNumber == if tableParam != "" then tableParam else old(tableNumber)
      ensures currentView == "tracker" || currentView == old(currentView)
      ensures lookup.Some? && server.Some?
              && Backend.Session(server.value, lookup.value).Ok?
              && Backend.Session(server.value, lookup.value).value.Active? ==>
        currentView == "tracker" && form.isReturningUser && form.verifiedPhone == "RECOVERED"
      ensures lookup.None? || server.None? || Backend.Session(server.value, lookup.value) == Backend.Ok(Backend.Inactive)
              || Backend.Session(server.value, lookup.value).Fail? ==>
        currentView == old(currentView)
      ensures activeItems == old(activeItems) && showThankYou == old(showThankYou)
    {
      lookup := DetectTableAndName(tableParam, storedName);
      if lookup.Some? {
        var reply := if server.Some? then Some(Backend.Session(server.value, lookup.value)) else None;
        RecoverSession(reply);
      }
    }

    /** The effect restoring the local list from the server order when the
        list is empty. */
    method SyncActiveItems(guestOrder: Option<Ticket>)
      modifies this
      ensures guestOrder.Some? && old(activeItems) == [] ==>
        activeItems == RestoredLines(guestOrder.value.items)
        && guestName == (if guestOrder.value.guestName.Some? && guestOrder.value.guestName.value != ""
                         then guestOrder.value.guestName.value else old(guestName))
      ensures !(guestOrder.Some? && old(activeItems) == []) ==>
        activeItems == old(activeItems) && guestName == old(guestName)
      ensures currentView == old(currentView) && tableNumber == old(tableNumber) && form == old(form)
      ensures showThankYou == old(showThankYou)
    {
      if guestOrder.Some? && |activeItems| == 0 {
        activeItems := RestoredLines(guestOrder.value.items);
        if guestOrder.value.guestName.Some? && guestOrder.value.guestName.value != "" {
          guestName := guestOrder.value.guestName.value;
        }
      }
    }

    /** `handlePlaceOrder`: the placed items become the local list, are
        sent on with the guest's name and table, and the tracker shows,
        in this screen and, at once, in the context's view. */
    method PlaceOrder(items: seq<CartItem>, ctx: RestaurantContext.Restaurant)
      returns (sent: seq<CartItem>, name: string, table: string)
      modifies this, ctx
      ensures sent == items && name == old(guestName) && table == old(tableNumber)
      ensures activeItems == Payment.CartLines(items) && currentView == "tracker"
      ensures guestName == old(guestName) && tableNumber == old(tableNumber) && form == old(form)
      ensures showThankYou == old(showThankYou)
      ensures ctx.view == "tracker" && ContextKept(ctx)
    {
      activeItems := Payment.CartLines(items);
      sent, name, table := items, guestName, tableNumber;
      currentView := "tracker";
      ctx.UpdateGuestView("tracker");
    }

    /** The cancel wrapper: the parent's `handleCancelOrder` over the
        context's tickets (its calls are returned), then back to the menu
        with an empty local list, in this screen and in the context. */
    method CancelOrder(ctx: RestaurantContext.Restaurant, confirmed: bool, cancelled: bool)
      returns (calls: seq<App.ApiCall>)
      modifies this, ctx
      ensures calls == App.CancelOrderCalls(old(ctx.tickets), confirmed, cancelled)
      ensures activeItems == [] && currentView == "menu"
      ensures guestName == old(guestName) && tableNumber == old(tableNumber) && form == old(form)
      ensures showThankYou == old(showThankYou)
      ensures ctx.view == "menu" && ContextKept(ctx)
    {
      calls := App.CancelOrderCalls(ctx.tickets, confirmed, cancelled);
      activeItems := [];
      currentView := "menu";
      ctx.UpdateGuestView("menu");
    }

    /** The effect syncing this screen's view into the context: with a
        session and off the landing page the context's view follows the
        screen; otherwise it is left alone. */
    method SyncViewToContext(ctx: RestaurantContext.Restaurant)
      modifies ctx
      ensures ContextKept(ctx)
      ensures var session := RestaurantContext.DeriveSession(old(ctx.user), old(ctx.tableId), old(ctx.view));
        ctx.view == if session.Some? && currentView != "landing" then currentView else old(ctx.view)
      ensures RestaurantContext.DeriveSession(old(ctx.user), old(ctx.tableId), old(ctx.view)).Some?
              && currentView != "landing" ==>
        RestaurantContext.DeriveSession(ctx.user, ctx.tableId, ctx.view).value.view == currentView
    {
      var session := RestaurantContext.DeriveSession(ctx.user, ctx.tableId, ctx.view);
      if session.Some? && currentView != "landing" {
        if session.value.view != currentView {
          ctx.UpdateGuestView(currentView);
        }
      }
    }

    /** `handlePaymentSuccess`: the thank-you screen on the tracker. */
    method PaymentSuccess()
      modifies this
      ensures showThankYou && currentView == "tracker"
      ensures TrackerStatus(showThankYou, None) == Paid
      ensures guestName == old(guestName) && tableNumber == old(tableNumber) && form == old(form)
      ensures activeItems == old(activeItems)
    {
      showThankYou := true;
      currentView := "tracker";
    }

    /** `handleSessionReset`: a first visit at table 4 on the landing page.
        The login fields are cleared (the error and loading flags are not
        touched), the context logs out and the stored preferences go. */
    method SessionReset(ctx: RestaurantContext.Restaurant)
      modifies this, ctx
      ensures !showThankYou && activeItems == []
      ensures form == old(form).(phoneNumber := "", verifiedPhone := "", isReturningUser := false,
                                 countryCode := "+91")
      ensures guestName == "Guest" && tableNumber == "4" && currentView == "landing"
      ensures ctx.user == None && ctx.tableId == "" && ctx.customerName == ""
      ensures ctx.tickets == [] && ctx.view == "landing"
      ensures RestaurantContext.DeriveSession(ctx.user, ctx.tableId, ctx.view) == None
      ensures ctx.storage == old(ctx.storage) - {RestaurantContext.UserIdKey, RestaurantContext.SessionKey, PrefsKey}
      ensures ctx.menuItems == old(ctx.menuItems) && ctx.menuError == old(ctx.menuError)
      ensures ctx.isOffline == old(ctx.isOffline) && ctx.isAppLoading == old(ctx.isAppLoading)
      ensures ctx.isAudioEnabled == old(ctx.isAudioEnabled) && ctx.prevOrderCount == old(ctx.prevOrderCount)
    {
      showThankYou := false;
      activeItems := [];
      form := form.(phoneNumber := "", verifiedPhone := "", isReturningUser := false, countryCode := "+91");
      guestName := "Guest";
      tableNumber := "4";
      ctx.LogoutGuest();
      ctx.storage := ctx.storage - {PrefsKey};
      currentView := "landing";
    }
  }
}
