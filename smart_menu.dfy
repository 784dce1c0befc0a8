/** The guest menu screen (components/SmartMenu.tsx): the cart it keeps,
    the scoring that ranks the menu against the guest's preferences, the
    "Top Picks" split and the label formatting. New cart ids
    (`crypto.randomUUID()`) are parameters. */
module SmartMenu {
  import opened Common
  import opened Menu
  import opened SmartCart
  import UserDb

  // ---------------------------------------------------------------------
  // Cart contents
  // ---------------------------------------------------------------------

  function Quantity(c: CartItem): int { c.quantity }

  /** `cartCount`: Σ quantity. (`cartTotal` is `Subtotal`.) */
  function CartCount(items: seq<CartItem>): int {
    SumOf(items, Quantity)
  }

  predicate UniqueCartIds(items: seq<CartItem>) {
    forall i, j :: 0 <= i < j < |items| ==> items[i].cartId != items[j].cartId
  }

  /** One entry under `handleUpdateQuantity(cartId, delta)`. */
  function Bumped(c: CartItem, cartId: string, delta: int): seq<CartItem> {
    if c.cartId != cartId then [c]
    else if c.quantity + delta <= 0 then []
    else [c.(quantity := c.quantity + delta)]
  }

  /** The cart after `handleUpdateQuantity`: the entries with that id get
      `delta` more, and go when that leaves them at zero or below. */
  function QuantityUpdated(items: seq<CartItem>, cartId: string, delta: int): seq<CartItem> {
    if items == [] then []
    else Bumped(items[0], cartId, delta) + QuantityUpdated(items[1..], cartId, delta)
  }

  /** The other entries are kept, in their order. */
  lemma {:induction false} QuantityUpdatedKeepsOthers(items: seq<CartItem>, cartId: string, delta: int)
    ensures Filter(QuantityUpdated(items, cartId, delta), (c: CartItem) => c.cartId != cartId)
         == Filter(items, (c: CartItem) => c.cartId != cartId)
  {
    var p := (c: CartItem) => c.cartId != cartId;
    if items != [] {
      QuantityUpdatedKeepsOthers(items[1..], cartId, delta);
      FilterAppend(Bumped(items[0], cartId, delta), QuantityUpdated(items[1..], cartId, delta), p);
      assert Filter(items, p) == (if p(items[0]) then [items[0]] else []) + Filter(items[1..], p);
      if !p(items[0]) {
        assert Filter(Bumped(items[0], cartId, delta), p) == [] by {
          var b := Bumped(items[0], cartId, delta);
          if b != [] {
            assert b[1..] == [];
          }
        }
      }
    }
  }

  /** An entry with that id is there afterwards exactly when it was there
      before with a quantity that stays positive, and then holds `delta`
      more. */
  lemma {:induction false} QuantityUpdatedTarget(items: seq<CartItem>, cartId: string, delta: int, c: CartItem)
    requires c.cartId == cartId
    ensures c in QuantityUpdated(items, cartId, delta) <==>
      c.quantity > 0 && c.(quantity := c.quantity - delta) in items
  {
    if items != [] {
      QuantityUpdatedTarget(items[1..], cartId, delta, c);
      var b := Bumped(items[0], cartId, delta);
      assert c in QuantityUpdated(items, cartId, delta) <==> c in b || c in QuantityUpdated(items[1..], cartId, delta);
      assert c.(quantity := c.quantity - delta) in items <==>
        c.(quantity := c.quantity - delta) == items[0] || c.(quantity := c.quantity - delta) in items[1..];
      if items[0].cartId == cartId && items[0].quantity + delta > 0 {
        assert b == [items[0].(quantity := items[0].quantity + delta)];
        assert c == items[0].(quantity := items[0].quantity + delta) <==>
          c.(quantity := c.quantity - delta) == items[0];
      }
    }
  }

  /** With distinct ids, changing one entry changes the item count by
      `delta`, or by minus its quantity when the entry goes. */
  lemma {:induction false} CartCountAfterUpdate(items: seq<CartItem>, k: nat, delta: int)
    requires k < |items| && UniqueCartIds(items)
    ensures CartCount(QuantityUpdated(items, items[k].cartId, delta))
         == CartCount(items) + (if items[k].quantity + delta <= 0 then -items[k].quantity else delta)
  {
    var id := items[k].cartId;
    var b := Bumped(items[0], id, delta);
    SumOfAppend(b, QuantityUpdated(items[1..], id, delta), Quantity);
    if k == 0 {
      UntouchedCount(items[1..], id, delta);
      if b != [] {
        assert b[1..] == [];
      }
    } else {
      CartCountAfterUpdate(items[1..], k - 1, delta);
      assert b == [items[0]];
    }
  }

  lemma {:induction false} UntouchedCount(items: seq<CartItem>, cartId: string, delta: int)
    requires forall i :: 0 <= i < |items| ==> items[i].cartId != cartId
    ensures QuantityUpdated(items, cartId, delta) == items
  {
    if items != [] {
      UntouchedCount(items[1..], cartId, delta);
    }
  }

  /** The last size of a portion item (`item.sizes[item.sizes.length - 1]`). */
  function LastSize(item: MenuItem): (r: Option<Size>)
    ensures r.Some? ==> item.portion && item.sizes.Some? && r.value in item.sizes.value
  {
    if item.portion && item.sizes.Some? && item.sizes.value != []
    then Some(item.sizes.value[|item.sizes.value| - 1])
    else None
  }

  /** A cart entry a quick add may bump: the same menu item, without a
      note, and without a size or with the size a quick add picks. */
  predicate QuickMatches(c: CartItem, item: MenuItem) {
    c.menuId == item.id && (c.notes == None || c.notes == Some(""))
    && (c.size == None || c.size == Some("")
        || (LastSize(item).Some? && c.size == Some(LastSize(item).value.title)))
  }

  /** The first matching entry (`find`). */
  function QuickMatch(items: seq<CartItem>, item: MenuItem): (r: Option<CartItem>)
    ensures r.Some? ==> r.value in items && QuickMatches(r.value, item)
    ensures r.Some? ==> exists k :: 0 <= k < |items| && items[k] == r.value
                          && forall j :: 0 <= j < k ==> !QuickMatches(items[j], item)
    ensures r.None? ==> forall k :: 0 <= k < |items| ==> !QuickMatches(items[k], item)
  {
    if items == [] then None
    else if QuickMatches(items[0], item) then Some(items[0])
    else
      var r := QuickMatch(items[1..], item);
      assert r.Some? ==> exists k :: 0 <= k < |items| && items[k] == r.value
                           && forall j :: 0 <= j < k ==> !QuickMatches(items[j], item) by {
        if r.Some? {
          var k :| 0 <= k < |items[1..]| && items[1..][k] == r.value
                   && forall j :: 0 <= j < k ==> !QuickMatches(items[1..][j], item);
          assert items[k + 1] == r.value;
          assert forall j :: 0 <= j < k + 1 ==> !QuickMatches(items[j], item) by {
            forall j | 0 <= j < k + 1 ensures !QuickMatches(items[j], item) {
              if j > 0 { assert items[j] == items[1..][j - 1]; }
            }
          }
        }
      }
      r
  }

  /** A new quick-add entry: one of the item, priced and labelled by the
      last size for a portion item. */
  function QuickEntry(item: MenuItem, cartId: string): (c: CartItem)
    ensures c.quantity == 1 && c.menuId == item.id && c.notes == Some("")
    ensures c.price == (if LastSize(item).Some? then LastSize(item).value.price else item.price)
    ensures QuickMatches(c, item)
  {
    var size := LastSize(item);
    CartItem(cartId, item.id, item.name, if size.Some? then size.value.price else item.price, 1,
             item.category, if size.Some? then Some(size.value.title) else None, Some(""),
             Some(item.image))
  }

  /** `handleQuickAdd` */
  function QuickAdded(items: seq<CartItem>, item: MenuItem, cartId: string): seq<CartItem> {
    match QuickMatch(items, item)
    case Some(c) => QuantityUpdated(items, c.cartId, 1)
    case None => items + [QuickEntry(item, cartId)]
  }

  /** With distinct ids and positive quantities (and a fresh id), a quick
      add always adds exactly one to the item count, and the cart then
      holds an entry that matches the item. */
  lemma QuickAddCount(items: seq<CartItem>, item: MenuItem, cartId: string)
    requires UniqueCartIds(items)
    requires forall k :: 0 <= k < |items| ==> items[k].quantity > 0
    ensures CartCount(QuickAdded(items, item, cartId)) == CartCount(items) + 1
    ensures QuickMatch(QuickAdded(items, item, cartId), item).Some?
  {
    match QuickMatch(items, item)
    case Some(c) =>
      var k :| 0 <= k < |items| && items[k] == c;
      CartCountAfterUpdate(items, k, 1);
      var r := QuantityUpdated(items, c.cartId, 1);
      var bumped := c.(quantity := c.quantity + 1);
      assert bumped.(quantity := bumped.quantity - 1) == c;
      QuantityUpdatedTarget(items, c.cartId, 1, bumped);
      var j :| 0 <= j < |r| && r[j] == bumped;
      assert QuickMatches(r[j], item);
    case None =>
      SumOfAppend(items, [QuickEntry(item, cartId)], Quantity);
      var r := items + [QuickEntry(item, cartId)];
      assert QuickMatches(r[|items|], item);
  }

  /** `item.addons?.find(ad => ad.name === n)` */
  function FindAddon(addons: seq<Addon>, name: string): (r: Option<Addon>)
    ensures r.Some? ==> r.value in addons && r.value.name == name
    ensures r.Some? ==> exists k :: 0 <= k < |addons| && addons[k] == r.value
                          && forall j :: 0 <= j < k ==> addons[j].name != name
    ensures r.None? ==> forall k :: 0 <= k < |addons| ==> addons[k].name != name
  {
    if addons == [] then None
    else if addons[0].name == name then Some(addons[0])
    else
      var r := FindAddon(addons[1..], name);
      assert r.Some? ==> exists k :: 0 <= k < |addons| && addons[k] == r.value
                           && forall j :: 0 <= j < k ==> addons[j].name != name by {
        if r.Some? {
          var k :| 0 <= k < |addons[1..]| && addons[1..][k] == r.value
                   && forall j :: 0 <= j < k ==> addons[1..][j].name != name;
          assert addons[k + 1] == r.value;
          assert forall j :: 0 <= j < k + 1 ==> addons[j].name != name by {
            forall j | 0 <= j < k + 1 ensures addons[j].name != name {
              if j > 0 { assert addons[j] == addons[1..][j - 1]; }
            }
          }
        }
      }
      r
  }

  /** What the chosen add-on names add to the price: each name found on
      the item adds that add-on's price, others add nothing. */
  function AddonsPrice(offered: Option<seq<Addon>>, names: seq<string>): int {
    if offered.None? || names == [] then 0
    else
      var a := FindAddon(offered.value, names[|names| - 1]);
      AddonsPrice(offered, names[..|names| - 1]) + (if a.Some? then a.value.price else 0)
  }

  /** A name the item does not offer changes nothing. */
  lemma UnknownAddonAddsNothing(offered: seq<Addon>, names: seq<string>, unknown: string)
    requires forall k :: 0 <= k < |offered| ==> offered[k].name != unknown
    ensures AddonsPrice(Some(offered), names + [unknown]) == AddonsPrice(Some(offered), names)
  {
    assert (names + [unknown])[..|names|] == names;
  }

  /** The unit price `handleDetailedAdd` computes. */
  function DetailedPrice(item: MenuItem, addons: seq<string>, size: Option<Size>): int {
    (if size.Some? then size.value.price else item.price) + AddonsPrice(item.addons, addons)
  }

  predicate NonEmpty(s: string) { s != [] }

  /** `[notes, ...addons].filter(Boolean).join(', ')` */
  function DetailedNotes(notes: string, addons: seq<string>): string {
    Join(Filter([notes] + addons, NonEmpty), ", ")
  }

  function DetailedEntry(item: MenuItem, quantity: int, notes: string, addons: seq<string>,
                         size: Option<Size>, cartId: string): CartItem {
    CartItem(cartId, item.id, item.name, DetailedPrice(item, addons, size), quantity,
             item.category, if size.Some? then Some(size.value.title) else None,
             Some(DetailedNotes(notes, addons)), Some(item.image))
  }

  /** A suggestion taken from the cart panel, as a cart entry. */
  function SuggestionEntry(u: Upsell, cartId: string): CartItem {
    CartItem(cartId, u.menuId, u.name, u.price, u.quantity, u.category, None, None, Some(u.image))
  }

  /** Taking a suggestion withdraws it: the cart then holds its category,
      so its rule no longer fires. */
  lemma TakenSuggestionWithdrawn(items: seq<CartItem>, s: Suggestion, cartId: string)
    requires s in Suggestions(items)
    ensures s.item !in Offered(Suggestions(items + [SuggestionEntry(s.item, cartId)]))
  {
    var after := items + [SuggestionEntry(s.item, cartId)];
    SuggestionRules(items);
    SuggestionRules(after);
    var k :| 0 <= k < |Suggestions(items)| && Suggestions(items)[k] == s;
    assert Offered(Suggestions(items))[k] == s.item;
    assert after[|items|].category == s.item.category;
    assert HasCategory(after, s.item.category);
  }

  /** The cart state of the menu screen. */
  class MenuCart {
    var items: seq<CartItem>

    constructor ()
      ensures items == []
    {
      items := [];
    }

    /** `handleUpdateQuantity` */
    method UpdateQuantity(cartId: string, delta: int)
      modifies this
      ensures items == QuantityUpdated(old(items), cartId, delta)
    {
      items := QuantityUpdated(items, cartId, delta);
    }

    /** `handleQuickAdd` */
    method QuickAdd(item: MenuItem, newCartId: string)
      modifies this
      ensures items == QuickAdded(old(items), item, newCartId)
    {
      var existing := QuickMatch(items, item);
      if existing.Some? {
        UpdateQuantity(existing.value.cartId, 1);
        return;
      }
      items := items + [QuickEntry(item, newCartId)];
    }

    /** `handleDetailedAdd`: the add-on prices are added up one name at a
        time. */
    method DetailedAdd(item: MenuItem, quantity: int, notes: string, addons: seq<string>,
                       size: Option<Size>, newCartId: string)
      modifies this
      ensures items == old(items) + [DetailedEntry(item, quantity, notes, addons, size, newCartId)]
    {
      var finalPrice := if size.Some? then size.value.price else item.price;
      if item.addons.Some? {
        var k := 0;
        while k < |addons|
          invariant 0 <= k <= |addons|
          invariant finalPrice == (if size.Some? then size.value.price else item.price)
                                  + AddonsPrice(item.addons, addons[..k])
        {
          var a := FindAddon(item.addons.value, addons[k]);
          if a.Some? {
            finalPrice := finalPrice + a.value.price;
          }
          assert addons[..k + 1][..k] == addons[..k];
          k := k + 1;
        }
        assert addons[..k] == addons;
      }
      items := items + [CartItem(newCartId, item.id, item.name, finalPrice, quantity, item.category,
                                 if size.Some? then Some(size.value.title) else None,
                                 Some(DetailedNotes(notes, addons)), Some(item.image))];
    }

    /** `handleRemoveItem`: every entry with that id goes, the rest stay in
        order. */
    method RemoveItem(cartId: string)
      modifies this
      ensures items == Filter(old(items), (c: CartItem) => c.cartId != cartId)
      ensures forall c :: c in items <==> c in old(items) && c.cartId != cartId
    {
      var p := (c: CartItem) => c.cartId != cartId;
      forall c
        ensures c in Filter(items, p) <==> c in items && c.cartId != cartId
      {
        FilterMembership(items, p, c);
      }
      items := Filter(items, p);
    }

    /** `handleAddSuggestion` */
    method AddSuggestion(u: Upsell, newCartId: string)
      modifies this
      ensures items == old(items) + [SuggestionEntry(u, newCartId)]
    {
      items := items + [SuggestionEntry(u, newCartId)];
    }

    /** `handleClearCart` */
    method Clear()
      modifies this
      ensures items == []
    {
      items := [];
    }
  }

  // ---------------------------------------------------------------------
  // Scoring
  // ---------------------------------------------------------------------

  /** The preference fields the scoring reads (`moods || cravings`,
      `goals || healthGoals`, `dietary || dietType`), already resolved. */
  datatype MenuPrefs = MenuPrefs(moods: seq<string>, goals: seq<string>, dietary: string)

  function DietaryText(d: UserDb.Dietary): string {
    match d
    case Veg => "veg"
    case NonVeg => "non-veg"
    case Egg => "egg"
  }

  /** A stored profile as the menu reads it: cravings are the moods, health
      goals the goals; no preferences at all read as empty lists. */
  function FromPreferences(p: Option<UserDb.Preferences>): MenuPrefs {
    match p
    case None => MenuPrefs([], [], "")
    case Some(q) => MenuPrefs(q.cravings, q.healthGoals, DietaryText(q.dietary))
  }

  /** Points earned and the reasons shown for them. */
  datatype Bonus = Bonus(points: int, reasons: seq<string>) {
    function Plus(other: Bonus): Bonus {
      Bonus(points + other.points, reasons + other.reasons)
    }
  }

  const NoBonus := Bonus(0, [])

  lemma PlusAssoc(a: Bonus, b: Bonus, c: Bonus)
    ensures a.Plus(b).Plus(c) == a.Plus(b.Plus(c))
  {
    assert a.reasons + b.reasons + c.reasons == a.reasons + (b.reasons + c.reasons);
  }

  function Rule(cond: bool, points: int, reason: string): Bonus {
    if cond then Bonus(points, [reason]) else NoBonus
  }

  /** Lower case without `_` and `-` (`toLowerCase().replace(/[_-]/g, '')`). */
  function Normalize(s: string): string {
    if s == [] then []
    else (if s[0] == '_' || s[0] == '-' then [] else [LowerChar(s[0])]) + Normalize(s[1..])
  }

  /** `tags.some(t => normalize(t).includes(goal))` */
  predicate AnyTagContains(tags: seq<string>, goal: string) {
    tags != [] && (Contains(Normalize(tags[0]), goal) || AnyTagContains(tags[1..], goal))
  }

  predicate SpicyMatch(item: MenuItem, p: MenuPrefs) {
    "spicy" in p.moods && (item.spiceLevel == "fiery" || item.spiceLevel == "medium" || "spicy" in item.tags)
  }

  predicate ComfortMatch(item: MenuItem, p: MenuPrefs) {
    "comfort" in p.moods && "comfort" in item.tags
  }

  predicate LightMatch(item: MenuItem, p: MenuPrefs) {
    "light" in p.moods && ("light" in item.tags || "healthy" in item.tags)
  }

  /** The three mood rules, given which of them match. */
  function MoodRules(spicy: bool, comfort: bool, light: bool): (b: Bonus)
    ensures 0 <= b.points <= 60
  {
    Rule(spicy, 25, "Spicy Craving").Plus(Rule(comfort, 20, "Comfort Food")).Plus(Rule(light, 15, "Light Choice"))
  }

  function MoodBonus(item: MenuItem, p: MenuPrefs): Bonus {
    MoodRules(SpicyMatch(item, p), ComfortMatch(item, p), LightMatch(item, p))
  }

  predicate ProteinGoal(n: string) { n == "protein" || n == "highprotein" }

  /** The three rules for one goal, given the goal normalised and as a label. */
  function GoalRules(n: string, title: string, tags: seq<string>): (b: Bonus)
    ensures 0 <= b.points <= 50
  {
    Rule(AnyTagContains(tags, n), 15, title)
    .Plus(Rule(ProteinGoal(n) && "high_protein" in tags, 15, "High Protein"))
    .Plus(Rule(n == "keto" && "keto" in tags, 20, "Keto Friendly"))
  }

  function GoalBonus(g: string, tags: seq<string>): (b: Bonus)
    ensures 0 <= b.points <= 50
  {
    GoalRules(Normalize(g), FormatText(g), tags)
  }

  /** The goals in order; each adds between 0 and 50 points. */
  function GoalsBonus(goals: seq<string>, tags: seq<string>): (b: Bonus)
    ensures 0 <= b.points <= 50 * |goals|
  {
    if goals == [] then NoBonus
    else GoalsBonus(goals[..|goals| - 1], tags).Plus(GoalBonus(goals[|goals| - 1], tags))
  }

  /** The dietary match, which gives points but no reason. */
  function DietPoints(item: MenuItem, p: MenuPrefs): int {
    DietMatch(if p.dietary == "" then "non-veg" else p.dietary, item.dietaryType)
  }

  /** The points for a guest's diet `d` against an item's dietary type. */
  function DietMatch(d: string, dietaryType: string): int {
    (if d == "veg" && (dietaryType == "veg" || dietaryType == "vegetarian") then 10 else 0)
    + (if d == "non-veg" && dietaryType == "non-veg" then 5 else 0)
  }

  function TotalBonus(item: MenuItem, p: MenuPrefs): Bonus {
    MoodBonus(item, p).Plus(GoalsBonus(p.goals, item.tags)).Plus(Bonus(DietPoints(item, p), []))
    .Plus(Rule("bestseller" in item.tags || "popular" in item.tags, 10, "Bestseller"))
  }

  /** A menu item with its score, match percentage and reasons. */
  datatype Enriched = Enriched(item: MenuItem, score: int, matchPercentage: int,
                               reasons: seq<string>, whyText: string)

  lemma DietPointsBounds(item: MenuItem, p: MenuPrefs)
    ensures 0 <= DietPoints(item, p) <= 10
  {
  }

  /** Every rule adds points, at most 60 for the moods, 50 per goal, 10 for
      the diet and 10 for a bestseller. */
  lemma TotalBonusBounds(item: MenuItem, p: MenuPrefs)
    ensures 0 <= TotalBonus(item, p).points <= 80 + 50 * |p.goals|
  {
    DietPointsBounds(item, p);
    var m, g, d := MoodBonus(item, p), GoalsBonus(p.goals, item.tags), DietPoints(item, p);
    var best := Rule("bestseller" in item.tags || "popular" in item.tags, 10, "Bestseller");
    assert TotalBonus(item, p).points == m.points + g.points + d + best.points;
  }

  /** An item with its bonus applied: 60 plus the points; the shown
      percentage is the score held between 60 and 99; the first reason, if
      any, is the "why" line. */
  function Scored(item: MenuItem, b: Bonus): (e: Enriched)
    ensures e.item == item && e.score == 60 + b.points && e.reasons == b.reasons
    ensures e.score <= 99 ==> e.matchPercentage == (if e.score < 60 then 60 else e.score)
    ensures e.score > 99 ==> e.matchPercentage == 99
    ensures e.reasons == [] ==> e.whyText == "Chef's Pick"
    ensures e.reasons != [] && e.reasons[0] != "" ==> e.whyText == "Matches " + e.reasons[0]
  {
    var score := 60 + b.points;
    Enriched(item, score, if score < 60 then 60 else if score > 99 then 99 else score, b.reasons,
             if b.reasons != [] && b.reasons[0] != "" then "Matches " + b.reasons[0] else "Chef's Pick")
  }

  /** The scoring of one item. */
  function Enrich(item: MenuItem, p: MenuPrefs): (e: Enriched)
    ensures e.item == item
    ensures 60 <= e.score <= 140 + 50 * |p.goals|
    ensures 60 <= e.matchPercentage <= 99
    ensures e.score <= 99 ==> e.matchPercentage == e.score
    ensures e.score > 99 ==> e.matchPercentage == 99
    ensures e.reasons == [] ==> e.whyText == "Chef's Pick"
  {
    TotalBonusBounds(item, p);
    Scored(item, TotalBonus(item, p))
  }

  /** The mood rules as the screen runs them. */
  method ApplyMoods(item: MenuItem, p: MenuPrefs) returns (score: int, reasons: seq<string>)
    ensures Bonus(score, reasons) == MoodBonus(item, p)
  {
    score, reasons := 0, [];
    var spicy, comfort, light := SpicyMatch(item, p), ComfortMatch(item, p), LightMatch(item, p);
    if spicy {
      score := score + 25;
      reasons := reasons + ["Spicy Craving"];
    }
    ghost var r1 := Bonus(score, reasons);
    assert r1 == Rule(spicy, 25, "Spicy Craving");
    if comfort {
      score := score + 20;
      reasons := reasons + ["Comfort Food"];
    }
    ghost var r12 := Bonus(score, reasons);
    assert r12 == r1.Plus(Rule(comfort, 20, "Comfort Food"));
    if light {
      score := score + 15;
      reasons := reasons + ["Light Choice"];
    }
    assert Bonus(score, reasons) == r12.Plus(Rule(light, 15, "Light Choice"));
  }

  /** One goal's rules as the screen runs them, `score +=` and
      `reasons.push` one rule at a time, given the goal normalised (`n`) and
      formatted (`title`). */
  method ApplyGoal(n: string, title: string, tags: seq<string>, score0: int, reasons0: seq<string>)
    returns (score: int, reasons: seq<string>)
    ensures Bonus(score, reasons) == Bonus(score0, reasons0).Plus(GoalRules(n, title, tags))
  {
    score, reasons := score0, reasons0;
    if AnyTagContains(tags, n) {
      score := score + 15;
      reasons := reasons + [title];
    }
    ghost var r1 := Bonus(score, reasons);
    if ProteinGoal(n) && "high_protein" in tags {
      score := score + 15;
      reasons := reasons + ["High Protein"];
    }
    ghost var r12 := Bonus(score, reasons);
    assert r12 == r1.Plus(Rule(ProteinGoal(n) && "high_protein" in tags, 15, "High Protein"));
    if n == "keto" && "keto" in tags {
      score := score + 20;
      reasons := reasons + ["Keto Friendly"];
    }
    assert Bonus(score, reasons) == r12.Plus(Rule(n == "keto" && "keto" in tags, 20, "Keto Friendly"));
    PlusAssoc(Bonus(score0, reasons0), Rule(AnyTagContains(tags, n), 15, title),
              Rule(ProteinGoal(n) && "high_protein" in tags, 15, "High Protein"));
    PlusAssoc(Bonus(score0, reasons0),
              Rule(AnyTagContains(tags, n), 15, title).Plus(Rule(ProteinGoal(n) && "high_protein" in tags, 15, "High Protein")),
              Rule(n == "keto" && "keto" in tags, 20, "Keto Friendly"));
  }

  /** The goals one at a time, in order. */
  method ApplyGoals(goals: seq<string>, tags: seq<string>, score0: int, reasons0: seq<string>)
    returns (score: int, reasons: seq<string>)
    ensures Bonus(score, reasons) == Bonus(score0, reasons0).Plus(GoalsBonus(goals, tags))
  {
    score, reasons := score0, reasons0;
    var k := 0;
    while k < |goals|
      invariant 0 <= k <= |goals|
      invariant Bonus(score, reasons) == Bonus(score0, reasons0).Plus(GoalsBonus(goals[..k], tags))
    {
      ghost var before := GoalsBonus(goals[..k], tags);
      var g := goals[k];
      score, reasons := ApplyGoal(Normalize(g), FormatText(g), tags, score, reasons);
      assert goals[..k + 1][..k] == goals[..k];
      assert GoalsBonus(goals[..k + 1], tags) == before.Plus(GoalBonus(goals[k], tags));
      PlusAssoc(Bonus(score0, reasons0), before, GoalBonus(goals[k], tags));
      k := k + 1;
    }
    assert goals[..k] == goals;
  }

  /** The diet points and the bestseller rule as the screen runs them. */
  method ApplyDietAndBestseller(item: MenuItem, p: MenuPrefs, score0: int, reasons0: seq<string>)
    returns (score: int, reasons: seq<string>)
    ensures Bonus(score, reasons)
         == Bonus(score0, reasons0).Plus(Bonus(DietPoints(item, p), []))
              .Plus(Rule("bestseller" in item.tags || "popular" in item.tags, 10, "Bestseller"))
  {
    score, reasons := score0, reasons0;
    var d := if p.dietary == "" then "non-veg" else p.dietary;
    if d == "veg" && (item.dietaryType == "veg" || item.dietaryType == "vegetarian") {
      score := score + 10;
    }
    if d == "non-veg" && item.dietaryType == "non-veg" {
      score := score + 5;
    }
    assert reasons0 + [] == reasons0;
    if "bestseller" in item.tags || "popular" in item.tags {
      score := score + 10;
      reasons := reasons + ["Bestseller"];
    }
  }

  /** The per-item computation as the screen runs it: the mood rules, the
      goals one at a time, the diet points and the bestseller rule. */
  method ScoreItem(item: MenuItem, p: MenuPrefs) returns (e: Enriched)
    ensures e == Enrich(item, p)
  {
    var score, reasons := ApplyMoods(item, p);
    score, reasons := ApplyGoals(p.goals, item.tags, score, reasons);
    score, reasons := ApplyDietAndBestseller(item, p, score, reasons);
    assert Bonus(score, reasons) == TotalBonus(item, p);
    var total := 60 + score;
    var why := "Chef's Pick";
    if reasons != [] && reasons[0] != "" {
      why := "Matches " + reasons[0];
    }
    e := Enriched(item, total, if total < 60 then 60 else if total > 99 then 99 else total, reasons, why);
  }

  lemma NoMoodPoints(item: MenuItem)
    ensures MoodBonus(item, MenuPrefs([], [], "")).points == 0
  {
    var p := MenuPrefs([], [], "");
    assert !SpicyMatch(item, p) && !ComfortMatch(item, p) && !LightMatch(item, p);
  }

  lemma DefaultDietPoints(item: MenuItem)
    ensures DietPoints(item, MenuPrefs([], [], "")) == (if item.dietaryType == "non-veg" then 5 else 0)
  {
    assert DietPoints(item, MenuPrefs([], [], "")) == DietMatch("non-veg", item.dietaryType);
  }

  /** A guest with no preferences sees every item at 60 plus the diet and
      bestseller points for a non-vegetarian default. */
  lemma NoPreferencesScore(item: MenuItem)
    ensures Enrich(item, FromPreferences(None)).score
         == 60 + (if item.dietaryType == "non-veg" then 5 else 0)
               + (if "bestseller" in item.tags || "popular" in item.tags then 10 else 0)
  {
    var p := FromPreferences(None);
    assert p == MenuPrefs([], [], "");
    NoMoodPoints(item);
    DefaultDietPoints(item);
    var b := TotalBonus(item, p);
    var best := Rule("bestseller" in item.tags || "popular" in item.tags, 10, "Bestseller");
    assert b.points == MoodBonus(item, p).points + GoalsBonus(p.goals, item.tags).points
                       + DietPoints(item, p) + best.points;
    assert Enrich(item, p).score == 60 + b.points;
  }

  // ---------------------------------------------------------------------
  // The ranked menu
  // ---------------------------------------------------------------------

  /** The search matches the lower-cased query (not trimmed) inside the
      lower-cased name or category. */
  predicate SearchHit(i: MenuItem, q: string) {
    Contains(Lower(i.name), q) || Contains(Lower(i.category), q)
  }

  /** The search applies only when the query is not blank. */
  function Searched(menu: seq<MenuItem>, query: string): seq<MenuItem> {
    if Trim(query) != [] then Filter(menu, (i: MenuItem) => SearchHit(i, Lower(query))) else menu
  }

  function InCategory(list: seq<MenuItem>, category: string): seq<MenuItem> {
    if category == "All" then list else Filter(list, (i: MenuItem) => i.category == category)
  }

  function EnrichAll(list: seq<MenuItem>, p: MenuPrefs): (r: seq<Enriched>)
    ensures |r| == |list|
    ensures forall k :: 0 <= k < |list| ==> r[k] == Enrich(list[k], p)
  {
    seq(|list|, k requires 0 <= k < |list| => Enrich(list[k], p))
  }

  function NegScore(e: Enriched): int { -e.score }

  /** `processedMenu`: search, then category, then scoring, then a stable
      sort by falling score. */
  function ProcessedMenu(menu: seq<MenuItem>, query: string, category: string, p: MenuPrefs): seq<Enriched> {
    SortBy(EnrichAll(InCategory(Searched(menu, query), category), p), NegScore)
  }

  /** An item passes the search and the category filter exactly when it is
      on the menu, the query is blank or hits it, and the category is "All"
      or its own. */
  lemma {:induction false} Passes(menu: seq<MenuItem>, query: string, category: string, i: MenuItem)
    ensures i in InCategory(Searched(menu, query), category) <==>
      i in menu && (Trim(query) == [] || SearchHit(i, Lower(query)))
      && (category == "All" || i.category == category)
  {
    var s := Searched(menu, query);
    if Trim(query) != [] {
      FilterMembership(menu, (x: MenuItem) => SearchHit(x, Lower(query)), i);
    }
    if category != "All" {
      FilterMembership(s, (x: MenuItem) => x.category == category, i);
    }
  }

  /** Scoring keeps one entry per item, so an item's entry is in the scored
      list exactly when the item is in the list scored. */
  lemma EnrichAllMembership(list: seq<MenuItem>, p: MenuPrefs, i: MenuItem)
    ensures Enrich(i, p) in EnrichAll(list, p) <==> i in list
  {
    var e := EnrichAll(list, p);
    if Enrich(i, p) in e {
      var k :| 0 <= k < |e| && e[k] == Enrich(i, p);
      assert list[k] == e[k].item;
    }
    if i in list {
      var k :| 0 <= k < |list| && list[k] == i;
      assert e[k] == Enrich(i, p);
    }
  }

  /** The ranked menu is ordered by falling score and is no longer than the
      menu. */
  lemma ProcessedMenuOrdered(menu: seq<MenuItem>, query: string, category: string, p: MenuPrefs)
    ensures var r := ProcessedMenu(menu, query, category, p);
      && (forall a, b :: 0 <= a < b < |r| ==> r[a].score >= r[b].score)
      && |r| <= |menu|
  {
    var r := ProcessedMenu(menu, query, category, p);
    assert |InCategory(Searched(menu, query), category)| <= |Searched(menu, query)| <= |menu|;
    assert SortedBy(r, NegScore);
    forall a, b | 0 <= a < b < |r|
      ensures r[a].score >= r[b].score
    {
      assert NegScore(r[a]) <= NegScore(r[b]);
    }
  }

  /** A menu item's entry shows up on the ranked menu exactly when the item
      passes the search and the category, and as often as the filtered list
      holds the item's entry. */
  lemma ProcessedMenuContents(menu: seq<MenuItem>, query: string, category: string, p: MenuPrefs,
                              i: MenuItem)
    ensures Enrich(i, p) in ProcessedMenu(menu, query, category, p) <==>
      i in menu && (Trim(query) == [] || SearchHit(i, Lower(query)))
      && (category == "All" || i.category == category)
  {
    var c := InCategory(Searched(menu, query), category);
    var e := EnrichAll(c, p);
    var r := SortBy(e, NegScore);
    assert Enrich(i, p) in r <==> Enrich(i, p) in multiset(e);
    EnrichAllMembership(c, p, i);
    Passes(menu, query, category, i);
  }

  /** `topPicks`: the first three after sorting by score again. */
  function TopPicks(processed: seq<Enriched>): seq<Enriched> {
    var sorted := SortBy(processed, NegScore);
    sorted[..if |sorted| < 3 then |sorted| else 3]
  }

  function Ids(es: seq<Enriched>): set<string> {
    set k | 0 <= k < |es| :: es[k].item.id
  }

  /** `standardItems`: the rest, dropping every item whose id is a top
      pick's. */
  function StandardItems(processed: seq<Enriched>): seq<Enriched> {
    Filter(SortBy(processed, NegScore), OutsideIds(Ids(TopPicks(processed))))
  }

  /** The test that an entry's id is not among `ids`. */
  function OutsideIds(ids: set<string>): Enriched -> bool {
    (e: Enriched) => e.item.id !in ids
  }

  /** Sorting an already sorted list changes nothing. */
  lemma {:induction false} SortBySorted<T>(s: seq<T>, key: T -> int)
    requires SortedBy(s, key)
    ensures SortBy(s, key) == s
    decreases |s|
  {
    if s != [] {
      var init := s[..|s| - 1];
      assert SortedBy(init, key);
      SortBySorted(init, key);
      assert s == init + [s[|s| - 1]];
    }
  }

  /** On a list already ranked by falling score the top picks are its
      first three entries. */
  lemma TopPicksPrefix(r: seq<Enriched>)
    requires SortedBy(r, NegScore)
    ensures TopPicks(r) == r[..if |r| < 3 then |r| else 3]
  {
    SortBySorted(r, NegScore);
  }

  /** No standard item shares an id with a top pick. */
  lemma StandardItemsDisjoint(processed: seq<Enriched>, e: Enriched)
    requires e in StandardItems(processed)
    ensures e.item.id !in Ids(TopPicks(processed))
  {
    FilterMembership(SortBy(processed, NegScore), OutsideIds(Ids(TopPicks(processed))), e);
  }

  /** Dropping the ids of a list from the list itself leaves nothing. */
  lemma DropOwnIds(top: seq<Enriched>)
    ensures Filter(top, OutsideIds(Ids(top))) == []
  {
    var keep := OutsideIds(Ids(top));
    FilterEmpty(top, keep);
    forall e | e in top
      ensures !keep(e)
    {
      var k :| 0 <= k < |top| && top[k] == e;
    }
  }

  /** When the ids of a list are distinct, dropping the ids of its first
      `n` entries keeps all the others. */
  lemma DropPrefixIds(r: seq<Enriched>, n: nat)
    requires n <= |r|
    requires forall a, b :: 0 <= a < b < |r| ==> r[a].item.id != r[b].item.id
    ensures Filter(r[n..], OutsideIds(Ids(r[..n]))) == r[n..]
  {
    var ids := Ids(r[..n]);
    FilterAll(r[n..], OutsideIds(ids));
    forall k | 0 <= k < |r[n..]|
      ensures OutsideIds(ids)(r[n..][k])
    {
      assert forall j :: 0 <= j < n ==> r[j].item.id != r[n + k].item.id;
    }
  }

  /** On a ranked list the standard items are the list without the ids of
      its first three entries. */
  lemma StandardItemsOfRanked(r: seq<Enriched>)
    requires SortedBy(r, NegScore)
    ensures StandardItems(r) == Filter(r, OutsideIds(Ids(r[..if |r| < 3 then |r| else 3])))
  {
    TopPicksPrefix(r);
    SortBySorted(r, NegScore);
  }

  /** On a ranked list whose ids are distinct, the top picks followed by the
      standard items are the whole list. */
  lemma TopPicksThenStandard(r: seq<Enriched>)
    requires SortedBy(r, NegScore)
    requires forall a, b :: 0 <= a < b < |r| ==> r[a].item.id != r[b].item.id
    ensures TopPicks(r) + StandardItems(r) == r
  {
    TopPicksPrefix(r);
    StandardItemsOfRanked(r);
    var n := if |r| < 3 then |r| else 3;
    DropOwnIds(r[..n]);
    DropPrefixIds(r, n);
    FilterSplit(r, n, OutsideIds(Ids(r[..n])));
    assert r[..n] + r[n..] == r;
  }

  /** The screen's split of the ranked menu: the top picks are its first
      three entries and, when the menu's ids are distinct, the two lists
      together are the ranked menu. */
  lemma TopPicksSplit(menu: seq<MenuItem>, query: string, category: string, p: MenuPrefs)
    ensures var r := ProcessedMenu(menu, query, category, p);
      && TopPicks(r) == r[..if |r| < 3 then |r| else 3]
      && ((forall a, b :: 0 <= a < b < |r| ==> r[a].item.id != r[b].item.id) ==>
            TopPicks(r) + StandardItems(r) == r)
  {
    var r := ProcessedMenu(menu, query, category, p);
    TopPicksPrefix(r);
    if forall a, b :: 0 <= a < b < |r| ==> r[a].item.id != r[b].item.id {
      TopPicksThenStandard(r);
    }
  }

  // ---------------------------------------------------------------------
  // Labels
  // ---------------------------------------------------------------------

  function Capitalize(w: string): string {
    if w == [] then [] else [UpperChar(w[0])] + w[1..]
  }

  function CapitalizeAll(ws: seq<string>): (r: seq<string>)
    ensures |r| == |ws|
    ensures forall k :: 0 <= k < |ws| ==> r[k] == Capitalize(ws[k])
  {
    seq(|ws|, k requires 0 <= k < |ws| => Capitalize(ws[k]))
  }

  /** `formatText`: "high_protein" becomes "High Protein". */
  function FormatText(text: string): string {
    if text == [] then [] else Join(CapitalizeAll(Split(text, '_')), " ")
  }

  /** The same label written character by character: `_` becomes a space and
      the first character of each word is upper-cased. */
  function Shaped(s: string, capNext: bool): (r: string)
    ensures |r| == |s|
  {
    if s == [] then []
    else if s[0] == '_' then [' '] + Shaped(s[1..], true)
    else [if capNext then UpperChar(s[0]) else s[0]] + Shaped(s[1..], false)
  }

  lemma JoinConsFirst(c: char, w: string, rest: seq<string>, sep: string)
    ensures Join([[c] + w] + rest, sep) == [c] + Join([w] + rest, sep)
  {
    if rest != [] {
      assert ([[c] + w] + rest)[1..] == rest;
      assert ([w] + rest)[1..] == rest;
    }
  }

  lemma {:induction false} FormatPieces(s: string, cap: bool)
    ensures var ws := Split(s, '_');
      Join([if cap then Capitalize(ws[0]) else ws[0]] + CapitalizeAll(ws[1..]), " ") == Shaped(s, cap)
  {
    var ws := Split(s, '_');
    if s != [] {
      var rest := Split(s[1..], '_');
      FormatPieces(s[1..], s[0] == '_');
      if s[0] == '_' {
        assert ws == [[]] + rest;
        var tail := CapitalizeAll(rest);
        assert tail == [Capitalize(rest[0])] + CapitalizeAll(rest[1..]);
        assert [if cap then Capitalize(ws[0]) else ws[0]] + CapitalizeAll(ws[1..]) == [[]] + tail;
      } else {
        assert ws == [[s[0]] + rest[0]] + rest[1..];
        var first := if cap then UpperChar(s[0]) else s[0];
        assert (if cap then Capitalize(ws[0]) else ws[0]) == [first] + rest[0];
        JoinConsFirst(first, rest[0], CapitalizeAll(rest[1..]), " ");
      }
    }
  }

  /** `formatText` agrees with the character-by-character description, so
      it keeps the length, turns every `_` into a space and changes nothing
      but the case of word starts. */
  lemma FormatTextShaped(text: string)
    ensures FormatText(text) == Shaped(text, true)
    ensures |FormatText(text)| == |text|
  {
    if text != [] {
      FormatPieces(text, true);
      var ws := Split(text, '_');
      assert CapitalizeAll(ws) == [Capitalize(ws[0])] + CapitalizeAll(ws[1..]);
    }
  }
}
