/** The guest's order tracker (components/OrderTracker.tsx): the flags and
    the footer it derives from the order status, and the small state it
    keeps (the waiter cooldown, the bill request, per-item feedback and the
    hidden five-tap door to the kitchen screen). The table is fixed at 4;
    timers are methods called when they fire. */
module OrderTracker {
  import opened Common
  import opened Tickets

  // ---------------------------------------------------------------------
  // Status flags
  // ---------------------------------------------------------------------

  /** Paid implies served. */
  predicate IsServed(s: OrderStatus) { s == Served || s == Paid }

  predicate IsCookingState(s: OrderStatus) { (s == Placed || s == Ready) && s != Cancelled }

  predicate CanCancel(s: OrderStatus) { s == Placed && s != Cancelled }

  /** The three footers. */
  datatype Footer = PaidFooter | ServedFooter | CookingFooter

  /** The footer branch: paid, else served, else the cooking footer. */
  function FooterFor(s: OrderStatus): Footer {
    if s == Paid then PaidFooter else if IsServed(s) then ServedFooter else CookingFooter
  }

  /** The header line under the title. */
  function HeaderLine(s: OrderStatus): string {
    if s == Paid then "Table #4 • Session Complete"
    else if IsServed(s) then "Table #4 • Enjoy your meal"
    else if s == Cancelled then "Table #4 • Order Cancelled"
    else "Table #4 • Live Status"
  }

  /** What the flags mean: cancelling is offered exactly for a placed order
      (and then the order is cooking); cooking and served exclude each other;
      the footer is the paid one exactly for `paid`, the served one exactly
      for `served`, and the cooking one for everything else — a cancelled
      order included, though it is not cooking. */
  lemma StatusFlags(s: OrderStatus)
    ensures CanCancel(s) <==> s == Placed
    ensures CanCancel(s) ==> IsCookingState(s)
    ensures !(IsCookingState(s) && IsServed(s))
    ensures FooterFor(s) == PaidFooter <==> s == Paid
    ensures FooterFor(s) == ServedFooter <==> s == Served
    ensures FooterFor(s) == CookingFooter <==> s in {Placed, Cooking, Ready, Cancelled}
    ensures s == Cancelled ==> FooterFor(s) == CookingFooter && !IsCookingState(s)
  {
  }

  /** The waiter button is disabled after a call only in the cooking
      footer; the served footer keeps it pressable. */
  predicate WaiterButtonEnabled(s: OrderStatus, waiterCalled: bool) {
    FooterFor(s) != PaidFooter && !(FooterFor(s) == CookingFooter && waiterCalled)
  }

  // ---------------------------------------------------------------------
  // Secret taps
  // ---------------------------------------------------------------------

  /** A tap on the header and the effect it triggers: the count goes up,
      and at five the kitchen opens and the count resets. */
  function Tap(clicks: int): (int, bool) {
    if clicks + 1 >= 5 then (0, true) else (clicks + 1, false)
  }

  /** `n` taps in a row, none after the 2 s window has closed: the count
      after them and whether the kitchen opened. */
  function Taps(clicks: int, n: nat): (int, bool)
    decreases n
  {
    if n == 0 then (clicks, false)
    else
      var t := Tap(clicks);
      var rest := Taps(t.0, n - 1);
      (rest.0, t.1 || rest.1)
  }

  /** From a reset counter, four quick taps do nothing visible, and the
      fifth opens the kitchen and resets the count. */
  lemma {:induction false} FifthTapOpensKitchen(k: nat)
    requires k <= 4
    ensures Taps(0, k) == (k, false)
    ensures Taps(0, 5) == (0, true)
  {
    if k > 0 {
      TapsFrom(0, k);
    }
    TapsFrom(0, 4);
    assert Taps(4, 1) == (0, true);
    TapsSplit(0, 4, 1);
  }

  /** Below the threshold, taps count up one each. */
  lemma {:induction false} TapsFrom(c: int, n: nat)
    requires 0 <= c && c + n <= 4
    ensures Taps(c, n) == (c + n, false)
    decreases n
  {
    if n > 0 {
      TapsFrom(c + 1, n - 1);
    }
  }

  /** Tapping `a` times and then `b` times is tapping `a + b` times. */
  lemma {:induction false} TapsSplit(c: int, a: nat, b: nat)
    ensures Taps(c, a + b) == (Taps(Taps(c, a).0, b).0, Taps(c, a).1 || Taps(Taps(c, a).0, b).1)
    decreases a
  {
    if a > 0 {
      TapsSplit(Tap(c).0, a - 1, b);
    }
  }

  // ---------------------------------------------------------------------
  // The tracker's state
  // ---------------------------------------------------------------------

  datatype Vote = Up | Down

  class Tracker {
    var waiterCalled: bool
    var billRequested: bool
    var secretClicks: int
    var showServiceModal: bool
    var toastRequest: Option<string>
    var feedback: map<string, Vote>

    /** The tap count stays between 0 and 4 between taps. */
    predicate Valid()
      reads this
    {
      0 <= secretClicks < 5
    }

    constructor ()
      ensures !waiterCalled && !billRequested && secretClicks == 0 && !showServiceModal
      ensures toastRequest == None && feedback == map[]
      ensures Valid()
    {
      waiterCalled, billRequested, secretClicks, showServiceModal := false, false, 0, false;
      toastRequest, feedback := None, map[];
    }

    method OpenServiceModal()
      modifies this
      ensures showServiceModal
      ensures waiterCalled == old(waiterCalled) && billRequested == old(billRequested)
      ensures secretClicks == old(secretClicks) && toastRequest == old(toastRequest)
      ensures feedback == old(feedback)
    {
      showServiceModal := true;
    }

    /** `handleServiceRequest`: closes the modal, sends the request, marks
        the waiter called and shows a toast. */
    method ServiceRequest(kind: string) returns (sent: string)
      modifies this
      ensures sent == kind
      ensures !showServiceModal && waiterCalled
      ensures toastRequest == Some("Request Sent: Bringing " + kind + " to Table 4.")
      ensures billRequested == old(billRequested) && secretClicks == old(secretClicks)
      ensures feedback == old(feedback)
    {
      showServiceModal := false;
      sent := kind;
      waiterCalled := true;
      toastRequest := Some("Request Sent: Bringing " + kind + " to Table 4.");
    }

    /** The 120000 ms cooldown after a request. */
    method CooldownElapsed()
      modifies this
      ensures !waiterCalled
      ensures billRequested == old(billRequested) && secretClicks == old(secretClicks)
      ensures showServiceModal == old(showServiceModal) && toastRequest == old(toastRequest)
      ensures feedback == old(feedback)
    {
      waiterCalled := false;
    }

    /** The 4 s toast timer. */
    method ToastElapsed()
      modifies this
      ensures toastRequest == None
      ensures waiterCalled == old(waiterCalled) && billRequested == old(billRequested)
      ensures secretClicks == old(secretClicks) && showServiceModal == old(showServiceModal)
      ensures feedback == old(feedback)
    {
      toastRequest := None;
    }

    /** `handleRequestBill`: sends "Request Bill" and opens the payment
        screen. */
    method RequestBill() returns (sent: string, openPayment: bool)
      modifies this
      ensures sent == "Request Bill" && openPayment && billRequested
      ensures waiterCalled == old(waiterCalled) && secretClicks == old(secretClicks)
      ensures showServiceModal == old(showServiceModal) && toastRequest == old(toastRequest)
      ensures feedback == old(feedback)
    {
      billRequested := true;
      sent := "Request Bill";
      openPayment := true;
    }

    /** `handleFeedback`: only that item's vote changes. */
    method Feedback(itemId: string, vote: Vote)
      modifies this
      ensures feedback == old(feedback)[itemId := vote]
      ensures forall id :: id != itemId ==> (id in feedback <==> id in old(feedback))
      ensures forall id :: id != itemId && id in feedback ==> feedback[id] == old(feedback)[id]
      ensures waiterCalled == old(waiterCalled) && billRequested == old(billRequested)
      ensures secretClicks == old(secretClicks) && showServiceModal == old(showServiceModal)
      ensures toastRequest == old(toastRequest)
    {
      feedback := feedback[itemId := vote];
    }

    /** A tap on the header, with the effect that follows it. */
    method SecretTap() returns (openKitchen: bool)
      requires Valid()
      modifies this
      ensures (secretClicks, openKitchen) == Tap(old(secretClicks))
      ensures openKitchen <==> old(secretClicks) == 4
      ensures Valid()
      ensures waiterCalled == old(waiterCalled) && billRequested == old(billRequested)
      ensures showServiceModal == old(showServiceModal) && toastRequest == old(toastRequest)
      ensures feedback == old(feedback)
    {
      secretClicks := secretClicks + 1;
      openKitchen := false;
      if secretClicks >= 5 {
        openKitchen := true;
        secretClicks := 0;
      }
    }

    /** The 2 s window closing without a fifth tap. */
    method TapWindowElapsed()
      modifies this
      ensures secretClicks == 0 && Valid()
      ensures waiterCalled == old(waiterCalled) && billRequested == old(billRequested)
      ensures showServiceModal == old(showServiceModal) && toastRequest == old(toastRequest)
      ensures feedback == old(feedback)
    {
      secretClicks := 0;
    }
  }
}
