/** The FastAPI backend (backend/main.py): the authoritative store of
    orders, menu items and users, one method per route. MongoDB is
    modelled as three sequences of documents in insertion order, so that
    `find_one` returns the first match; every document gets a fresh
    ObjectId from a counter, rendered as 24 hexadecimal digits. HTTP
    errors are the `Fail` outcome with their status code. */
module Backend {
  import opened Common
  import opened Tickets

  datatype Outcome<T> = Ok(value: T) | Fail(code: int)

  // ---------------------------------------------------------------------
  // ObjectId text: 24 hexadecimal digits
  // ---------------------------------------------------------------------

  predicate IsHexChar(c: char) {
    ('0' <= c <= '9') || ('a' <= c <= 'f') || ('A' <= c <= 'F')
  }

  predicate AllHex(s: string) {
    forall i :: 0 <= i < |s| ==> IsHexChar(s[i])
  }

  function HexDigit(d: nat): char
    requires d < 16
  {
    if d < 10 then ('0' as int + d) as char else ('a' as int + d - 10) as char
  }

  function HexDigitValue(c: char): (r: nat)
    requires IsHexChar(c)
    ensures r < 16
  {
    if '0' <= c <= '9' then c as int - '0' as int
    else if 'a' <= c <= 'f' then c as int - 'a' as int + 10
    else c as int - 'A' as int + 10
  }

  function Pow16(k: nat): (r: nat)
    ensures r >= 1
  {
    if k == 0 then 1 else 16 * Pow16(k - 1)
  }

  /** The `width` low hexadecimal digits of `n`, lower case, most
      significant first. */
  function FormatHex(n: nat, width: nat): (r: string)
    ensures |r| == width && AllHex(r)
  {
    if width == 0 then [] else FormatHex(n / 16, width - 1) + [HexDigit(n % 16)]
  }

  function HexValue(s: string): nat
    requires AllHex(s)
  {
    if s == [] then 0 else HexValue(s[..|s| - 1]) * 16 + HexDigitValue(s[|s| - 1])
  }

  const ObjectIdLength: nat := 24

  /** `str(ObjectId)` */
  function ObjectIdText(n: nat): (r: string)
    ensures |r| == ObjectIdLength
  {
    FormatHex(n, ObjectIdLength)
  }

  /** `ObjectId(s)` for a string: exactly 24 hexadecimal digits in either
      case, otherwise the constructor raises. */
  function ParseObjectId(s: string): (r: Option<nat>)
    ensures r.Some? <==> |s| == ObjectIdLength && AllHex(s)
  {
    if |s| == ObjectIdLength && AllHex(s) then Some(HexValue(s)) else None
  }

  lemma {:induction false} HexValueBelow(s: string)
    requires AllHex(s)
    ensures HexValue(s) < Pow16(|s|)
  {
    if s != [] {
      HexValueBelow(s[..|s| - 1]);
    }
  }

  lemma {:induction false} FormatHexValue(n: nat, width: nat)
    requires n < Pow16(width)
    ensures HexValue(FormatHex(n, width)) == n
  {
    if width > 0 {
      var r := FormatHex(n, width);
      assert r[..|r| - 1] == FormatHex(n / 16, width - 1);
      FormatHexValue(n / 16, width - 1);
    }
  }

  lemma {:induction false} HexValueFormat(s: string)
    requires AllHex(s)
    ensures FormatHex(HexValue(s), |s|) == Lower(s)
  {
    if s != [] {
      var init := s[..|s| - 1];
      HexValueFormat(init);
      HexValueBelow(init);
      var v := HexValue(s);
      assert v / 16 == HexValue(init) && v % 16 == HexDigitValue(s[|s| - 1]);
      assert Lower(s) == Lower(init) + [LowerChar(s[|s| - 1])];
    }
  }

  /** Every id the store hands out reads back as itself. */
  lemma ObjectIdRoundTrip(n: nat)
    requires n < Pow16(ObjectIdLength)
    ensures ParseObjectId(ObjectIdText(n)) == Some(n)
  {
    FormatHexValue(n, ObjectIdLength);
  }

  /** A parsed id prints back as the input, lower-cased: two spellings of
      an id differ only in letter case. */
  lemma ObjectIdTextOfParse(s: string)
    requires ParseObjectId(s).Some?
    ensures ObjectIdText(ParseObjectId(s).value) == Lower(s)
    ensures ParseObjectId(s).value < Pow16(ObjectIdLength)
  {
    HexValueFormat(s);
    HexValueBelow(s);
  }

  // ---------------------------------------------------------------------
  // Python `int(text)`
  // ---------------------------------------------------------------------

  /** `int(text)` for a decimal string: surrounding white space, an
      optional sign and at least one digit; anything else raises
      `ValueError`. */
  function ParseInt(text: string): (r: Option<int>)
    ensures r.Some? ==> Trim(text) != []
  {
    var t := Trim(text);
    if |t| >= 2 && (t[0] == '-' || t[0] == '+') && AllDigits(t[1..]) then
      Some((if t[0] == '-' then -1 else 1) * DecimalValue(t[1..]))
    else if |t| >= 1 && AllDigits(t) then Some(DecimalValue(t))
    else None
  }

  /** `int(str(n)) == n`. */
  lemma ParseIntText(n: int)
    ensures ParseInt(IntText(n)) == Some(n)
  {
    var t := IntText(n);
    assert !IsSpace(t[0]) && !IsSpace(t[|t| - 1]);
    TrimNoSpace(t);
    if n < 0 {
      DecimalRoundTrip(-n);
      assert t[1..] == DecimalText(-n);
    } else {
      DecimalRoundTrip(n);
    }
  }

  // ---------------------------------------------------------------------
  // Documents and requests
  // ---------------------------------------------------------------------

  /** A stored order. `oid` is its `_id`. */
  datatype OrderDoc = OrderDoc(
    oid: nat,
    createdAt: int,
    status: OrderStatus,
    tableId: int,
    items: seq<OrderItem>,
    guestName: Option<string>,
    totalAmount: real,
    kind: Option<string>)

  /** The body of `POST /api/orders` (OrderCreate). */
  datatype OrderCreate = OrderCreate(
    tableId: int,
    items: seq<OrderItem>,
    guestName: Option<string>,
    totalAmount: Option<real>,
    kind: Option<string>)

  /** A stored menu item; only the fields the routes look at. A missing
      `isAvailable` counts as available. */
  datatype MenuDoc = MenuDoc(oid: nat, name: string, price: real, category: string,
                             isAvailable: Option<bool>)

  /** Preferences are a free-form dictionary; values are abstracted to text. */
  type Prefs = map<string, string>

  datatype UserDoc = UserDoc(oid: nat, name: string, phone: string, preferences: Prefs,
                             visitCount: int, lastVisit: int)

  /** The body of `POST /api/users/login` (UserLogin). */
  datatype UserLogin = UserLogin(name: Option<string>, phone: string, preferences: Option<Prefs>)

  datatype SessionReply =
    | Inactive
    | Active(guestName: Option<string>, tableId: string, orderId: string, status: OrderStatus)

  datatype Deleted = Deleted(id: string)

  datatype UserCheck = UserCheck(exists_: bool, name: Option<string>)

  function StatusText(s: OrderStatus): string {
    match s
    case Placed => "placed"
    case Cooking => "cooking"
    case Ready => "ready"
    case Served => "served"
    case Paid => "paid"
    case Cancelled => "cancelled"
  }

  /** `serialize_order`: the document with `_id` replaced by its text `id`. */
  function Serialize(d: OrderDoc): (t: Ticket)
    ensures t.id == ObjectIdText(d.oid) && |t.id| == ObjectIdLength
    ensures t.status == d.status && t.tableId == d.tableId && t.items == d.items
    ensures t.createdAt == d.createdAt && t.guestName == d.guestName && t.kind == d.kind
    ensures t.totalAmount == Some(d.totalAmount)
  {
    Ticket(ObjectIdText(d.oid), d.tableId, d.createdAt, d.status, d.kind, d.guestName,
           d.items, Some(d.totalAmount))
  }

  /** The serialised `id` reads back as the document's `_id`, so distinct
      documents get distinct ids. */
  lemma SerializedIdParses(d: OrderDoc, e: OrderDoc)
    requires d.oid < Pow16(ObjectIdLength) && e.oid < Pow16(ObjectIdLength)
    ensures ParseObjectId(Serialize(d).id) == Some(d.oid)
    ensures Serialize(d).id == Serialize(e).id <==> d.oid == e.oid
  {
    ObjectIdRoundTrip(d.oid);
    ObjectIdRoundTrip(e.oid);
  }

  // ---------------------------------------------------------------------
  // Placing an order
  // ---------------------------------------------------------------------

  predicate OpenOnTable(d: OrderDoc, table: int) {
    d.tableId == table && IsActive(d.status)
  }

  /** `find_one({tableId, status ∉ {paid, cancelled}})`: the index of the
      first open order of the table. */
  function FirstOpen(orders: seq<OrderDoc>, table: int): (r: Option<nat>)
    ensures r.Some? ==> r.value < |orders| && OpenOnTable(orders[r.value], table)
    ensures r.Some? ==> forall j :: 0 <= j < r.value ==> !OpenOnTable(orders[j], table)
    ensures r.None? ==> forall j :: 0 <= j < |orders| ==> !OpenOnTable(orders[j], table)
  {
    if orders == [] then None
    else if OpenOnTable(orders[0], table) then Some(0)
    else
      match FirstOpen(orders[1..], table)
      case None => None
      case Some(i) => Some(i + 1)
  }

  /** GST (5%) plus service charge (2.5%) on top of the subtotal, computed
      exactly (the source uses floats). */
  function WithCharges(subtotal: real): real {
    subtotal + subtotal * 0.05 + subtotal * 0.025
  }

  /** The merge branch: the new items go after the existing ones, the
      total is recomputed from all items, the status goes back to placed
      and the guest name is overwritten. */
  function Merge(d: OrderDoc, req: OrderCreate): OrderDoc {
    var items := d.items + req.items;
    d.(items := items, totalAmount := WithCharges(ItemsSubtotal(items)),
       status := Placed, guestName := req.guestName)
  }

  /** The insert branch. */
  function NewOrder(oid: nat, req: OrderCreate, now: int): OrderDoc {
    OrderDoc(oid, now, Placed, req.tableId, req.items, req.guestName,
             req.totalAmount.GetOr(0.0),
             if req.kind == None || req.kind == Some("") then Some("food") else req.kind)
  }

  /** A merged order keeps its id, table, creation time and type, holds the
      old items followed by the new ones, is placed again, and totals
      107.5% of the value of all its items. */
  lemma MergeEffect(d: OrderDoc, req: OrderCreate)
    ensures var m := Merge(d, req);
      && m.oid == d.oid && m.tableId == d.tableId && m.createdAt == d.createdAt
      && m.kind == d.kind
      && m.items[..|d.items|] == d.items && m.items[|d.items|..] == req.items
      && m.status == Placed && m.guestName == req.guestName
      && m.totalAmount == (ItemsSubtotal(d.items) + ItemsSubtotal(req.items)) * 1.075
  {
    RealSumOfAppend(d.items, req.items, LineTotal);
  }

  /** The request's `type` and `totalAmount` play no part in a merge. */
  lemma MergeIgnoresTypeAndTotal(d: OrderDoc, req: OrderCreate, kind: Option<string>,
                                 total: Option<real>)
    ensures Merge(d, req) == Merge(d, req.(kind := kind, totalAmount := total))
  {
  }

  /** Two merges in a row equal one merge of both batches of items. */
  lemma MergeTwice(d: OrderDoc, r1: OrderCreate, r2: OrderCreate)
    ensures Merge(Merge(d, r1), r2)
         == Merge(d, r2.(items := r1.items + r2.items))
  {
    assert d.items + r1.items + r2.items == d.items + (r1.items + r2.items);
  }

  /** A fresh order is placed, typed `food` unless the request names a type,
      and carries the client's total unchanged (0 when absent). */
  lemma NewOrderEffect(oid: nat, req: OrderCreate, now: int)
    ensures var d := NewOrder(oid, req, now);
      && d.status == Placed && d.items == req.items && d.tableId == req.tableId
      && (req.totalAmount.Some? ==> d.totalAmount == req.totalAmount.value)
      && (req.totalAmount.None? ==> d.totalAmount == 0.0)
      && (d.kind == Some("food") <==> req.kind in {None, Some(""), Some("food")})
  {
  }

  // ---------------------------------------------------------------------
  // Status updates
  // ---------------------------------------------------------------------

  /** One item under `PATCH /status?status=target`: "ready" moves pending
      items (including those without a status) to ready, "served" moves
      ready items to served, any other value changes nothing. */
  function Advance(it: OrderItem, target: string): OrderItem {
    if target == "ready" && EffectiveStatus(it) == ItemPending then it.(status := Some(ItemReady))
    else if target == "served" && EffectiveStatus(it) == ItemReady then it.(status := Some(ItemServed))
    else it
  }

  function AdvanceAll(items: seq<OrderItem>, target: string): (r: seq<OrderItem>)
    ensures |r| == |items|
    ensures forall i :: 0 <= i < |items| ==> r[i] == Advance(items[i], target)
  {
    seq(|items|, i requires 0 <= i < |items| => Advance(items[i], target))
  }

  /** `any(i.get('status', 'pending') == s for i in items)` */
  function HasStatus(items: seq<OrderItem>, s: ItemStatus): (r: bool)
    ensures r <==> exists i :: 0 <= i < |items| && EffectiveStatus(items[i]) == s
  {
    if items == [] then false
    else EffectiveStatus(items[0]) == s || HasStatus(items[1..], s)
  }

  /** Placed while anything is pending, else ready while anything is ready,
      else served. */
  function ParentStatus(items: seq<OrderItem>): (r: OrderStatus)
    ensures r in {Placed, Ready, Served}
    ensures r == Placed <==> HasStatus(items, ItemPending)
    ensures r == Ready <==> !HasStatus(items, ItemPending) && HasStatus(items, ItemReady)
  {
    if HasStatus(items, ItemPending) then Placed
    else if HasStatus(items, ItemReady) then Ready
    else Served
  }

  /** After "ready" nothing is pending, so the order is ready or served. */
  lemma ReadyLeavesNothingPending(items: seq<OrderItem>)
    ensures !HasStatus(AdvanceAll(items, "ready"), ItemPending)
    ensures ParentStatus(AdvanceAll(items, "ready")) != Placed
  {
  }

  /** After "served" no item is left ready, so the order is never reported
      ready: it is placed when something is pending, otherwise served. */
  lemma ServedLeavesNothingReady(items: seq<OrderItem>)
    ensures !HasStatus(AdvanceAll(items, "served"), ItemReady)
    ensures ParentStatus(AdvanceAll(items, "served")) ==
            (if HasStatus(items, ItemPending) then Placed else Served)
  {
    var r := AdvanceAll(items, "served");
    if HasStatus(items, ItemPending) {
      var i :| 0 <= i < |items| && EffectiveStatus(items[i]) == ItemPending;
      assert EffectiveStatus(r[i]) == ItemPending;
    }
  }

  /** Any other requested value leaves every item as it was. */
  lemma OtherTargetChangesNothing(items: seq<OrderItem>, target: string)
    requires target != "ready" && target != "served"
    ensures AdvanceAll(items, target) == items
  {
  }

  /** Marking an order ready twice is the same as marking it once. */
  lemma AdvanceIdempotent(items: seq<OrderItem>, target: string)
    ensures AdvanceAll(AdvanceAll(items, target), target) == AdvanceAll(items, target)
  {
  }

  // ---------------------------------------------------------------------
  // Settling a table
  // ---------------------------------------------------------------------

  predicate Unsettled(d: OrderDoc, table: int) {
    d.tableId == table && d.status != Paid
  }

  /** `update_many({tableId, status != paid}, {$set: {status: paid}})` */
  function SettleAll(orders: seq<OrderDoc>, table: int): (r: seq<OrderDoc>)
    ensures |r| == |orders|
    ensures forall i :: 0 <= i < |orders| ==>
      r[i] == if Unsettled(orders[i], table) then orders[i].(status := Paid) else orders[i]
  {
    seq(|orders|, i requires 0 <= i < |orders| =>
      if Unsettled(orders[i], table) then orders[i].(status := Paid) else orders[i])
  }

  /** `modified_count`: the number of unsettled orders of the table. */
  function SettleCount(orders: seq<OrderDoc>, table: int): nat {
    if orders == [] then 0
    else (if Unsettled(orders[0], table) then 1 else 0) + SettleCount(orders[1..], table)
  }

  /** The number of positions at which two equally long lists differ. */
  function Differences<T(==)>(a: seq<T>, b: seq<T>): nat
    requires |a| == |b|
  {
    if a == [] then 0 else (if a[0] != b[0] then 1 else 0) + Differences(a[1..], b[1..])
  }

  /** The reported count is exactly the number of documents changed. */
  lemma {:induction false} SettleCountIsChanges(orders: seq<OrderDoc>, table: int)
    ensures SettleCount(orders, table) == Differences(orders, SettleAll(orders, table))
  {
    if orders != [] {
      SettleCountIsChanges(orders[1..], table);
      assert SettleAll(orders, table)[1..] == SettleAll(orders[1..], table);
    }
  }

  /** After settling, every order of the table is paid (cancelled ones
      included) and nothing else changed. */
  lemma SettleEffect(orders: seq<OrderDoc>, table: int)
    ensures forall i :: 0 <= i < |orders| && orders[i].tableId == table ==>
      SettleAll(orders, table)[i].status == Paid
    ensures forall i :: 0 <= i < |orders| && orders[i].tableId != table ==>
      SettleAll(orders, table)[i] == orders[i]
    ensures SettleCount(SettleAll(orders, table), table) == 0
  {
    SettleNothingLeft(SettleAll(orders, table), table);
  }

  lemma {:induction false} SettleNothingLeft(orders: seq<OrderDoc>, table: int)
    requires forall i :: 0 <= i < |orders| && orders[i].tableId == table ==> orders[i].status == Paid
    ensures SettleCount(orders, table) == 0
  {
    if orders != [] {
      SettleNothingLeft(orders[1..], table);
    }
  }

  // ---------------------------------------------------------------------
  // Session lookup
  // ---------------------------------------------------------------------

  predicate IdsIncreasing(orders: seq<OrderDoc>) {
    forall i, j :: 0 <= i < j < |orders| ==> orders[i].oid < orders[j].oid
  }

  /** The last open order of the table in insertion order. */
  function LastOpen(orders: seq<OrderDoc>, table: int): (r: Option<nat>)
    ensures r.Some? ==> r.value < |orders| && OpenOnTable(orders[r.value], table)
    ensures r.Some? ==> forall j :: r.value < j < |orders| ==> !OpenOnTable(orders[j], table)
    ensures r.None? ==> forall j :: 0 <= j < |orders| ==> !OpenOnTable(orders[j], table)
  {
    if orders == [] then None
    else if OpenOnTable(orders[|orders| - 1], table) then Some(|orders| - 1)
    else LastOpen(orders[..|orders| - 1], table)
  }

  /** Because ids grow with insertion, the last open order is the one with
      the highest `_id`, which is what `sort("_id", -1).limit(1)` picks. */
  lemma NewestOpenHasHighestId(orders: seq<OrderDoc>, table: int)
    requires IdsIncreasing(orders)
    requires LastOpen(orders, table).Some?
    ensures forall j :: 0 <= j < |orders| && OpenOnTable(orders[j], table) ==>
      orders[j].oid <= orders[LastOpen(orders, table).value].oid
  {
  }

  /** `GET /api/tables/{table_id}/session`: the reply describes the last
      open order of the table. */
  function Session(orders: seq<OrderDoc>, tableText: string): (r: Outcome<SessionReply>)
    ensures ParseInt(tableText).None? <==> r == Fail(400)
    ensures r.Ok? ==> (r.value == Inactive <==>
      forall j :: 0 <= j < |orders| ==> !OpenOnTable(orders[j], ParseInt(tableText).value))
    ensures r.Ok? && r.value.Active? ==>
      var i := LastOpen(orders, ParseInt(tableText).value);
      i.Some? && r.value.tableId == tableText
      && r.value.guestName == orders[i.value].guestName
      && r.value.orderId == ObjectIdText(orders[i.value].oid)
      && r.value.status == orders[i.value].status
      && r.value.status != Paid && r.value.status != Cancelled
  {
    match ParseInt(tableText)
    case None => Fail(400)
    case Some(t) =>
      match LastOpen(orders, t)
      case None => Ok(Inactive)
      case Some(i) =>
        var o := orders[i];
        Ok(Active(o.guestName, tableText, ObjectIdText(o.oid), o.status))
  }

  /** With ids growing in insertion order, an active session names the
      open order of the table with the highest `_id`, as
      `sort("_id", -1).limit(1)` picks it. */
  lemma SessionIsNewest(orders: seq<OrderDoc>, tableText: string)
    requires IdsIncreasing(orders)
    requires Session(orders, tableText).Ok? && Session(orders, tableText).value.Active?
    ensures var a := Session(orders, tableText).value;
      exists i :: 0 <= i < |orders| && OpenOnTable(orders[i], ParseInt(tableText).value)
        && a.orderId == ObjectIdText(orders[i].oid) && a.status == orders[i].status
        && a.guestName == orders[i].guestName
        && forall j :: 0 <= j < |orders| && OpenOnTable(orders[j], ParseInt(tableText).value) ==>
             orders[j].oid <= orders[i].oid
  {
    var t := ParseInt(tableText).value;
    NewestOpenHasHighestId(orders, t);
    var i := LastOpen(orders, t).value;
    assert OpenOnTable(orders[i], t);
  }

  // ---------------------------------------------------------------------
  // Reading orders
  // ---------------------------------------------------------------------

  /** `to_list(1000)`: at most this many documents are read. */
  const ListLimit := 1000

  /** The status filter of `GET /api/orders`: an empty or missing one
      selects every order. */
  predicate Selected(d: OrderDoc, status: Option<string>) {
    status.None? || status == Some("") || StatusText(d.status) == status.value
  }

  /** Every stored order the filter selects, serialised, in storage order. */
  function Matching(orders: seq<OrderDoc>, status: Option<string>): (r: seq<Ticket>)
    ensures |r| <= |orders|
    ensures status.None? || status == Some("") ==> |r| == |orders|
    ensures forall j :: 0 <= j < |orders| && Selected(orders[j], status) ==> Serialize(orders[j]) in r
    ensures forall t :: t in r ==> exists j :: 0 <= j < |orders| && Selected(orders[j], status)
                                              && t == Serialize(orders[j])
  {
    if orders == [] then []
    else
      var rest := Matching(orders[1..], status);
      assert forall j :: 1 <= j < |orders| ==> orders[j] == orders[1..][j - 1];
      if Selected(orders[0], status) then [Serialize(orders[0])] + rest else rest
  }

  /** `GET /api/orders?status=…`: the first 1000 selected orders. */
  function ListOrders(orders: seq<OrderDoc>, status: Option<string>): (r: seq<Ticket>)
    ensures |r| <= ListLimit && |r| <= |Matching(orders, status)| <= |orders|
    ensures r == Matching(orders, status)[..|r|]
    ensures |r| == ListLimit || r == Matching(orders, status)
  {
    var m := Matching(orders, status);
    if |m| <= ListLimit then m else m[..ListLimit]
  }

  function FindById(orders: seq<OrderDoc>, oid: nat): (r: Option<nat>)
    ensures r.Some? ==> r.value < |orders| && orders[r.value].oid == oid
    ensures r.None? ==> forall j :: 0 <= j < |orders| ==> orders[j].oid != oid
  {
    if orders == [] then None
    else if orders[0].oid == oid then Some(0)
    else
      match FindById(orders[1..], oid)
      case None => None
      case Some(i) => Some(i + 1)
  }

  /** `GET /api/orders/{order_id}` */
  function GetOrder(orders: seq<OrderDoc>, orderId: string): (r: Outcome<Ticket>)
    ensures ParseObjectId(orderId).None? ==> r == Fail(400)
    ensures r.Ok? ==> exists j :: (0 <= j < |orders| && r.value == Serialize(orders[j])
                                   && Some(orders[j].oid) == ParseObjectId(orderId))
    ensures r == Fail(404) <==> (ParseObjectId(orderId).Some? &&
      forall j :: 0 <= j < |orders| ==> Some(orders[j].oid) != ParseObjectId(orderId))
  {
    match ParseObjectId(orderId)
    case None => Fail(400)
    case Some(oid) =>
      match FindById(orders, oid)
      case None => Fail(404)
      case Some(i) => Ok(Serialize(orders[i]))
  }

  // ---------------------------------------------------------------------
  // Users
  // ---------------------------------------------------------------------

  function FindByPhone(users: seq<UserDoc>, phone: string): (r: Option<nat>)
    ensures r.Some? ==> r.value < |users| && users[r.value].phone == phone
    ensures r.Some? ==> forall j :: 0 <= j < r.value ==> users[j].phone != phone
    ensures r.None? ==> forall j :: 0 <= j < |users| ==> users[j].phone != phone
  {
    if users == [] then None
    else if users[0].phone == phone then Some(0)
    else
      match FindByPhone(users[1..], phone)
      case None => None
      case Some(i) => Some(i + 1)
  }

  /** `POST /api/users/check` */
  function CheckUser(users: seq<UserDoc>, phone: string): (r: UserCheck)
    ensures r.exists_ <==> exists j :: 0 <= j < |users| && users[j].phone == phone
    ensures r.exists_ ==> r.name == Some(users[FindByPhone(users, phone).value].name)
    ensures !r.exists_ ==> r.name == None
  {
    match FindByPhone(users, phone)
    case None => UserCheck(false, None)
    case Some(i) => UserCheck(true, Some(users[i].name))
  }

  /** An existing user logging in: visit count up by one, last visit now,
      the name replaced only by a non-empty one, the preferences only by a
      non-empty dictionary. */
  function Relogin(u: UserDoc, req: UserLogin, now: int): UserDoc {
    u.(lastVisit := now,
       name := if req.name.Some? && req.name.value != "" then req.name.value else u.name,
       preferences := if req.preferences.Some? && req.preferences.value != map[]
                      then req.preferences.value else u.preferences,
       visitCount := u.visitCount + 1)
  }

  function NewUser(oid: nat, req: UserLogin, now: int): UserDoc {
    UserDoc(oid,
            if req.name.Some? && req.name.value != "" then req.name.value else "Guest",
            req.phone, req.preferences.GetOr(map[]), 1, now)
  }

  /** Logging in with no name and no preferences keeps both, so a returning
      guest is recognised by phone alone. */
  lemma ReloginKeepsProfile(u: UserDoc, phone: string, now: int)
    ensures var v := Relogin(u, UserLogin(None, phone, None), now);
      v.name == u.name && v.preferences == u.preferences && v.oid == u.oid
      && v.visitCount == u.visitCount + 1
  {
  }

  /** A first login with no name is "Guest" on its first visit. */
  lemma NewUserDefaults(oid: nat, phone: string, now: int)
    ensures NewUser(oid, UserLogin(None, phone, None), now)
         == UserDoc(oid, "Guest", phone, map[], 1, now)
  {
  }

  /** Two logins count two visits. */
  lemma ReloginCountsVisits(u: UserDoc, a: UserLogin, b: UserLogin, t1: int, t2: int)
    ensures Relogin(Relogin(u, a, t1), b, t2).visitCount == u.visitCount + 2
    ensures Relogin(Relogin(u, a, t1), b, t2).lastVisit == t2
  {
  }

  // ---------------------------------------------------------------------
  // The store
  // ---------------------------------------------------------------------

  predicate IdsBelow(orders: seq<OrderDoc>, bound: nat) {
    forall i :: 0 <= i < |orders| ==> orders[i].oid < bound
  }

  class Server {
    var orders: seq<OrderDoc>
    var menu: seq<MenuDoc>
    var users: seq<UserDoc>
    /** The next ObjectId to hand out. */
    var nextId: nat

    ghost predicate Valid()
      reads this
    {
      IdsIncreasing(orders) && IdsBelow(orders, nextId)
    }

    constructor ()
      ensures Valid() && orders == [] && menu == [] && users == [] && nextId == 0
    {
      orders, menu, users, nextId := [], [], [], 0;
    }

    /** `POST /api/orders`: merge into the table's first open order, or
        insert a new one. */
    method PlaceOrder(req: OrderCreate, now: int) returns (r: Ticket)
      requires Valid()
      modifies this
      ensures Valid() && menu == old(menu) && users == old(users)
      ensures FirstOpen(old(orders), req.tableId).Some? ==>
        var i := FirstOpen(old(orders), req.tableId).value;
        orders == old(orders)[i := Merge(old(orders)[i], req)] && nextId == old(nextId)
        && r == Serialize(orders[i])
      ensures FirstOpen(old(orders), req.tableId).None? ==>
        orders == old(orders) + [NewOrder(old(nextId), req, now)] && nextId == old(nextId) + 1
        && r == Serialize(NewOrder(old(nextId), req, now))
    {
      match FirstOpen(orders, req.tableId)
      case Some(i) =>
        var current := orders[i].items;
        current := current + req.items;
        var merged := orders[i].(items := current, totalAmount := WithCharges(ItemsSubtotal(current)),
                                 status := Placed, guestName := req.guestName);
        orders := orders[i := merged];
        r := Serialize(merged);
      case None =>
        var d := NewOrder(nextId, req, now);
        orders := orders + [d];
        nextId := nextId + 1;
        r := Serialize(d);
    }

    /** `PATCH /api/orders/{order_id}/status`: the item loop updates each
        item in place, then the parent status is recomputed from the items. */
    method UpdateStatus(orderId: string, target: string) returns (r: Outcome<Ticket>)
      requires Valid()
      modifies this
      ensures Valid() && menu == old(menu) && users == old(users) && nextId == old(nextId)
      ensures ParseObjectId(orderId).None? ==> r == Fail(400) && orders == old(orders)
      ensures ParseObjectId(orderId).Some? && FindById(old(orders), ParseObjectId(orderId).value).None?
        ==> r == Fail(404) && orders == old(orders)
      ensures ParseObjectId(orderId).Some? && FindById(old(orders), ParseObjectId(orderId).value).Some?
        ==> var i := FindById(old(orders), ParseObjectId(orderId).value).value;
            var items := AdvanceAll(old(orders)[i].items, target);
            orders == old(orders)[i := old(orders)[i].(items := items, status := ParentStatus(items))]
            && r == Ok(Serialize(orders[i]))
    {
      var oid := ParseObjectId(orderId);
      if oid.None? {
        return Fail(400);
      }
      var found := FindById(orders, oid.value);
      if found.None? {
        return Fail(404);
      }
      var i := found.value;
      var items := orders[i].items;
      ghost var original := items;
      var k := 0;
      while k < |items|
        invariant 0 <= k <= |items| == |original|
        invariant items[..k] == AdvanceAll(original[..k], target)
        invariant items[k..] == original[k..]
      {
        var it := items[k];
        if target == "ready" {
          if EffectiveStatus(it) == ItemPending {
            items := items[k := it.(status := Some(ItemReady))];
          }
        } else if target == "served" {
          if EffectiveStatus(it) == ItemReady {
            items := items[k := it.(status := Some(ItemServed))];
          }
        }
        assert items[..k + 1] == items[..k] + [Advance(original[k], target)];
        assert original[..k + 1] == original[..k] + [original[k]];
        k := k + 1;
      }
      assert items == items[..k] && original == original[..k];
      var updated := orders[i].(items := items, status := ParentStatus(items));
      orders := orders[i := updated];
      r := Ok(Serialize(updated));
    }

    /** `POST /api/tables/{table_id}/settle` */
    method SettleTable(tableText: string) returns (r: Outcome<nat>)
      requires Valid()
      modifies this
      ensures Valid() && menu == old(menu) && users == old(users) && nextId == old(nextId)
      ensures ParseInt(tableText).None? ==> r == Fail(400) && orders == old(orders)
      ensures ParseInt(tableText).Some? ==>
        var t := ParseInt(tableText).value;
        orders == SettleAll(old(orders), t) && r == Ok(SettleCount(old(orders), t))
    {
      var t := ParseInt(tableText);
      if t.None? {
        return Fail(400);
      }
      r := Ok(SettleCount(orders, t.value));
      orders := SettleAll(orders, t.value);
    }

    /** `PATCH /api/menu/{item_id}/toggle` */
    method ToggleItem(itemId: string) returns (r: Outcome<MenuDoc>)
      modifies this
      ensures orders == old(orders) && users == old(users) && nextId == old(nextId)
      ensures ParseObjectId(itemId).None? ==> r == Fail(400) && menu == old(menu)
      ensures ParseObjectId(itemId).Some? ==>
        var oid := ParseObjectId(itemId).value;
        if forall j :: 0 <= j < |old(menu)| ==> old(menu)[j].oid != oid
        then r == Fail(404) && menu == old(menu)
        else exists j :: (0 <= j < |old(menu)| && old(menu)[j].oid == oid
          && (forall k :: 0 <= k < j ==> old(menu)[k].oid != oid)
          && menu == old(menu)[j := old(menu)[j].(isAvailable := Some(!old(menu)[j].isAvailable.GetOr(true)))]
          && r == Ok(menu[j]))
    {
      var oid := ParseObjectId(itemId);
      if oid.None? {
        return Fail(400);
      }
      var j := 0;
      while j < |menu| && menu[j].oid != oid.value
        invariant 0 <= j <= |menu|
        invariant forall k :: 0 <= k < j ==> menu[k].oid != oid.value
      {
        j := j + 1;
      }
      if j == |menu| {
        return Fail(404);
      }
      var item := menu[j];
      menu := menu[j := item.(isAvailable := Some(!item.isAvailable.GetOr(true)))];
      r := Ok(menu[j]);
    }

    /** `DELETE /api/menu/{item_id}`: `delete_one` removes the first item
        with that id. */
    method DeleteMenuItem(itemId: string) returns (r: Outcome<Deleted>)
      modifies this
      ensures orders == old(orders) && users == old(users) && nextId == old(nextId)
      ensures ParseObjectId(itemId).None? ==> r == Fail(400) && menu == old(menu)
      ensures ParseObjectId(itemId).Some? ==>
        var oid := ParseObjectId(itemId).value;
        if forall j :: 0 <= j < |old(menu)| ==> old(menu)[j].oid != oid
        then r == Fail(404) && menu == old(menu)
        else r == Ok(Deleted(itemId)) && exists j :: (0 <= j < |old(menu)| && old(menu)[j].oid == oid
          && (forall k :: 0 <= k < j ==> old(menu)[k].oid != oid)
          && menu == old(menu)[..j] + old(menu)[j + 1..])
    {
      var oid := ParseObjectId(itemId);
      if oid.None? {
        return Fail(400);
      }
      var j := 0;
      while j < |menu| && menu[j].oid != oid.value
        invariant 0 <= j <= |menu|
        invariant forall k :: 0 <= k < j ==> menu[k].oid != oid.value
      {
        j := j + 1;
      }
      if j == |menu| {
        return Fail(404);
      }
      menu := menu[..j] + menu[j + 1..];
      r := Ok(Deleted(itemId));
    }

    /** `POST /api/users/login`: upsert by phone. */
    method LoginUser(req: UserLogin, now: int) returns (r: Outcome<UserDoc>)
      modifies this
      ensures orders == old(orders) && menu == old(menu)
      ensures req.phone == "" ==> r == Fail(400) && users == old(users) && nextId == old(nextId)
      ensures req.phone != "" && FindByPhone(old(users), req.phone).Some? ==>
        var i := FindByPhone(old(users), req.phone).value;
        users == old(users)[i := Relogin(old(users)[i], req, now)] && nextId == old(nextId)
        && r == Ok(users[i])
      ensures req.phone != "" && FindByPhone(old(users), req.phone).None? ==>
        users == old(users) + [NewUser(old(nextId), req, now)] && nextId == old(nextId) + 1
        && r == Ok(NewUser(old(nextId), req, now))
    {
      if req.phone == "" {
        return Fail(400);
      }
      match FindByPhone(users, req.phone)
      case Some(i) =>
        users := users[i := Relogin(users[i], req, now)];
        r := Ok(users[i]);
      case None =>
        var u := NewUser(nextId, req, now);
        users := users + [u];
        nextId := nextId + 1;
        r := Ok(u);
    }

    /** `PUT /api/users/{user_id}/preferences`. A user's `preferences` is
        always a dictionary (login stores one), and MongoDB refuses
        `$addToSet` on a field that is not an array, so the write fails and
        the route answers 500; for an unknown user the update matches
        nothing and returning `None` against the `User` response model also
        answers 500. The store never changes. */
    method AddPreference(userId: string, preference: Option<string>) returns (r: Outcome<UserDoc>)
      modifies this
      ensures orders == old(orders) && menu == old(menu) && users == old(users)
      ensures nextId == old(nextId)
      ensures preference.None? || preference == Some("") ==> r == Fail(400)
      ensures preference.Some? && preference != Some("") && ParseObjectId(userId).None? ==> r == Fail(400)
      ensures preference.Some? && preference != Some("") && ParseObjectId(userId).Some? ==> r == Fail(500)
    {
      if preference.None? || preference == Some("") {
        return Fail(400);
      }
      if ParseObjectId(userId).None? {
        return Fail(400);
      }
      r := Fail(500);
    }
  }
}
