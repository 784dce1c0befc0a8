# dineai, modelled in Dafny

This project models the deterministic core of dineai, a restaurant
table-ordering app with a React front end and a FastAPI back end. It covers
six parts.

- The back end's order, menu and user store (`backend/main.py`): placing an
  order (merged into the table's open order, or inserted), item and parent
  status updates, settling a table, session lookup, menu toggles and
  deletes, and login by phone.
- The client's ticket cache (`context/RestaurantContext.tsx`) and the
  handlers in `App.tsx` that build payloads and pick "the guest's order".
- Pricing: the cart, coupons, the menu's cart handlers and scoring, the
  food detail sheet and the payment sheet.
- The staff views: kitchen and service screens, kitchen and manager
  analytics, the admin and inventory screens, and the waiting-time badge.
- The guest flow: the landing page's phone input and view switching, the
  onboarding wizard and the browser-side profile store.
- The small parsers: comma-separated tags, the `parseInt`, `parseFloat` and
  `Number` conversions the forms use, and the `.env` loader of the seeding
  script.

Each source file with its own state becomes a Dafny `class` whose methods
are the file's handlers. Their `ensures` clauses give the whole new state
in terms of specification functions. Lemmas then prove what the source
promises about those functions. Pure selectors and folds are functions
with lemmas.

Conventions used throughout:
- Network calls, the browser's storage, the clock and confirm dialogs are
  parameters of the methods. An API call's outcome is an `Option` (`None`
  is a rejected promise) or a `bool`.
- Prices in the cart and menu are whole rupees (`int`). Back-end and ticket
  amounts are exact `real`s.
- `Math.round(x * 0.05)` and `Math.round(x * 0.025)` on whole rupees are
  `RoundDiv` over integers.
- A JavaScript object used as a dictionary is an association list that
  keeps insertion order.

Shared modules: `Common` holds Option, the string helpers (trim, case,
split/join, substring search), sums, filters, toggles and a stable sort.
`Tickets` holds the order and ticket records shared by the back end and
the client. `Menu` holds the menu item record, and `Tally` the
name-to-count dictionary both dashboards build. `JsNumber` holds the three
JavaScript number conversions.

## Model

| member | source | states |
|---|---|---|
| Backend.ObjectIdRoundTrip | backend/main.py:160-167 | an id rendered as 24 hex characters parses back to the same id |
| Backend.ObjectIdTextOfParse | backend/main.py:270-275 | a 24-hex-character id that parses renders back as its lower-case form |
| Backend.ParseObjectId | backend/main.py:270-275 | an id parses exactly when it is 24 hexadecimal characters |
| Backend.ParseInt | backend/main.py:327-331 | `int(table_id)` succeeds only on non-blank text (an optional sign and ASCII digits; see Left out) |
| Backend.ParseIntText | backend/main.py:327-331 | every integer's decimal text parses back to that integer |
| Backend.Serialize | backend/main.py:160-167 | `_id` becomes the 24-character `id` text, and status, table, items, creation time, guest name, kind and total carry over unchanged |
| Backend.SerializedIdParses | backend/main.py:160-167 | the `id` string parses back to the order's id, and two orders get the same string exactly when their ids are equal |
| Backend.FirstOpen | backend/main.py:177-182 | the first order of the table that is neither paid nor cancelled, or none when there is none |
| Backend.MergeEffect | backend/main.py:183-224 | a merge keeps the order's id, table, creation time and type, appends the new items after the old ones, resets the status to placed, overwrites the guest name, and sets the total to subtotal × 1.075 over all items |
| Backend.MergeIgnoresTypeAndTotal | backend/main.py:183-224 | the request's type and total are not consulted when merging |
| Backend.MergeTwice | backend/main.py:183-224 | two merges equal one merge of both item lists |
| Backend.NewOrderEffect | backend/main.py:233-246 | a fresh order is placed, carries the request's items and table, copies the request total (0 when absent), and has type food when the request's type is missing, empty or food |
| Backend.AdvanceAll | backend/main.py:284-296 | every item is advanced on its own, in place |
| Backend.HasStatus | backend/main.py:300-308 | holds exactly when some item has that status, a missing status counting as pending |
| Backend.ParentStatus | backend/main.py:300-308 | placed exactly when an item is pending, else ready exactly when one is ready, else served; never paid or cancelled |
| Backend.ReadyLeavesNothingPending | backend/main.py:286-290 | after a `ready` update no item is pending (missing statuses included) and the order is not placed |
| Backend.ServedLeavesNothingReady | backend/main.py:291-296 | after a `served` update no item is ready, and the order is placed if something was pending, else served |
| Backend.OtherTargetChangesNothing | backend/main.py:284-296 | any requested status other than ready or served changes no item |
| Backend.AdvanceIdempotent | backend/main.py:284-296 | repeating the same status update changes nothing more |
| Backend.SettleAll | backend/main.py:333-337 | every order of the table whose status is not paid becomes paid, cancelled included; all others are untouched |
| Backend.SettleCountIsChanges | backend/main.py:338-340 | the returned count is the number of orders the settle changed |
| Backend.SettleEffect | backend/main.py:333-340 | after settling, every order of the table is paid, other tables' orders are unchanged, and settling again counts 0 |
| Backend.SettleNothingLeft | backend/main.py:333-340 | a table whose orders are all paid settles with count 0 |
| Backend.LastOpen | backend/main.py:349-355 | the last open order of the table, or none |
| Backend.NewestOpenHasHighestId | backend/main.py:349-355 | with ids increasing, the last open order has the highest id among the table's open orders |
| Backend.Session | backend/main.py:343-367 | 400 on a non-integer table; otherwise inactive exactly when the table has no open order, and an active reply echoes the table text and carries the guest name, the `id` text and the open status of the order the newest-first lookup finds |
| Backend.SessionIsNewest | backend/main.py:343-367 | with ids increasing in storage order, an active reply names the open order of the table with the highest id |
| Backend.Matching | backend/main.py:249-254 | every order passing the status filter is listed, serialized, and every listed ticket is such an order; without a status (or with an empty one) that is every order |
| Backend.ListOrders | backend/main.py:249-254 | `to_list(1000)`: the first (at most) 1000 matching tickets in storage order, all of them when fewer match |
| Backend.FindById | backend/main.py:257-267 | the position of the order with that id, or none when no order has it |
| Backend.GetOrder | backend/main.py:257-267 | 400 for a malformed id, 404 exactly when no order has it, otherwise that order serialized |
| Backend.FindByPhone | backend/main.py:386-388 | the first user with that phone, or none |
| Backend.CheckUser | backend/main.py:373-377 | `exists` exactly when a user has the phone, and then that user's name |
| Backend.ReloginKeepsProfile | backend/main.py:392-417 | a login without name or preferences keeps both and adds one visit |
| Backend.NewUserDefaults | backend/main.py:418-432 | a new user without name or preferences is "Guest" with empty preferences and one visit |
| Backend.ReloginCountsVisits | backend/main.py:392-417 | two logins add two visits and leave the last login time |
| Backend.Server.PlaceOrder | backend/main.py:175-246 | merges into the table's first open order (same id, nothing inserted), otherwise appends a new order with the next id |
| Backend.Server.UpdateStatus | backend/main.py:270-324 | 400 for a malformed id and 404 for an unknown one, both with nothing changed; otherwise the items advance and the parent status is recomputed from them |
| Backend.Server.SettleTable | backend/main.py:327-340 | 400 for a non-integer table; otherwise the orders become `SettleAll` of the old ones and the reply is the count |
| Backend.Server.ToggleItem | backend/main.py:132-144 | 400 for a malformed id, 404 for an unknown one, otherwise the first item with the id has its availability (true when missing) negated |
| Backend.Server.DeleteMenuItem | backend/main.py:147-157 | 400 for a malformed id, 404 for an unknown one, otherwise exactly the first item with the id is removed |
| Backend.Server.LoginUser | backend/main.py:380-439 | 400 for an empty phone; an existing user is updated in place by `Relogin`; otherwise a `NewUser` is appended with the next id |
| Backend.Server.AddPreference | backend/main.py:455-472 | 400 for a missing or empty preference or a malformed id; otherwise the update fails (500), because stored preferences are a dictionary |
| RestaurantContext.DeriveSession | context/RestaurantContext.tsx:93-108 | a guest session exists exactly when there is a user and a non-empty table; it carries the user's name, the table and the view, and the user's preferences or the fixed default |
| RestaurantContext.InitialView | context/RestaurantContext.tsx:78-83 | the stored session's view, and "landing" when no session is stored |
| RestaurantContext.ChimeOnlyOnGrowth | context/RestaurantContext.tsx:133-137 | the chime never plays for an unchanged count, and from the initial count 0 it plays for any non-empty list when audio is on |
| RestaurantContext.FindTicket | context/RestaurantContext.tsx:335 | `findIndex`: the first ticket with the id, or none |
| RestaurantContext.UpsertEffect | context/RestaurantContext.tsx:331-342 | the returned ticket replaces the first cached ticket with its id at the same index, or is appended; every other ticket is unchanged |
| RestaurantContext.UpsertIdempotent | context/RestaurantContext.tsx:331-342 | upserting the same ticket twice is the same as once |
| RestaurantContext.Restaurant.constructor | context/RestaurantContext.tsx:64-90 | the initial state: no tickets, online, audio off, count 0, no user, empty name and table, view from storage |
| RestaurantContext.Restaurant.PersistSession | context/RestaurantContext.tsx:111-119 | with a user and a table the session key stores the table and the view ("menu" when empty); otherwise storage is untouched |
| RestaurantContext.Restaurant.FetchOrders | context/RestaurantContext.tsx:123-146 | a successful poll replaces the tickets wholesale, stores their count and clears the offline flag, chiming exactly when audio is on and the count grew; a failed poll only sets offline |
| RestaurantContext.Restaurant.LoadApp | context/RestaurantContext.tsx:166-218 | loads the menu; with a stored user id, a found user opens the menu and a missing one clears the key and shows the landing page; without one the landing page |
| RestaurantContext.Restaurant.LoginGuest | context/RestaurantContext.tsx:220-244 | sets the table and drops the stored user id; on success stores the new id, sets the user and name and opens the menu; on failure alerts and leaves no user |
| RestaurantContext.Restaurant.UpdateGuestView | context/RestaurantContext.tsx:246-249 | sets the view; every other field of the context is unchanged |
| RestaurantContext.Restaurant.LogoutGuest | context/RestaurantContext.tsx:251-266 | removes both stored keys, clears user, table, name and tickets, shows the landing page, and leaves no guest session; the menu, the offline, loading and audio flags and the previous count are kept |
| RestaurantContext.Restaurant.ResetOrderSession | context/RestaurantContext.tsx:268-274 | empties the tickets and shows the menu without touching the user |
| RestaurantContext.Restaurant.UpdateGuestPreferences | context/RestaurantContext.tsx:277-291 | with a user, replaces its preferences and writes it under both user keys; without one changes nothing |
| RestaurantContext.Restaurant.ToggleAudio | context/RestaurantContext.tsx:293-299 | flips the audio flag and chimes when turning it on |
| RestaurantContext.Restaurant.PlaceOrder | context/RestaurantContext.tsx:320-353 | on success the cache becomes `Upsert` of the returned ticket; on failure the error is passed on and the cache is untouched |
| App.TableNumber | App.tsx:62 | the payload's table is defined exactly when `Number(tableId)` reads a number with no fractional part ("4.0" is table 4) |
| App.TableNumberValue | App.tsx:62 | that table is the very value `Number` reads |
| App.JsNumberText | App.tsx:62 | `Number(tableId)` reads an integer's decimal text as that integer and the empty text as 0 |
| App.ToPayloadItems | App.tsx:65-70 | each cart line becomes one payload item, in order |
| App.GuestOrderPayload | App.tsx:60-72 | the food-order payload has the numeric table, the guest's name, type food, each item's name, quantity, notes and price copied, and a total of Σ price × quantity with no tax |
| App.ServiceRequestPayload | App.tsx:127-138 | a service request is sent for table 4 by "Guest" with total 0, one item named after the request at quantity 1 and price 0, and type request |
| App.ToOrderCreate | App.tsx:60-72 | the request the back end receives: present exactly when the table is a number, carrying the payload's fields |
| App.SentSubtotal | App.tsx:63-70 | the items received add up to the cart's subtotal |
| App.FirstOrderUntaxedMergeTaxed | App.tsx:60-72 | a guest's first order is stored with the untaxed cart total, while a merge into an open order stores the taxed total over all items |
| App.ServiceRequestStored | App.tsx:127-138 | a fresh service request is stored for table 4 as a request of total 0 with its one pending item, and merging one into an open order re-totals that order's own items |
| App.StatusPriority | App.tsx:150-157 | the priorities lie between 0 and 4, and are 0 exactly for paid and cancelled |
| App.GuestOrderChoice | App.tsx:159-166 | no guest order exactly when no table-4 ticket is placed, ready or served; otherwise the first candidate with the highest priority |
| App.GuestOrderIsTop | App.tsx:159-166 | the chosen ticket is a candidate from the list and no candidate outranks it |
| App.GuestOrderPrefersEarlierStages | App.tsx:159-166 | a placed candidate is always preferred, and a ready one over a served one; request tickets are not excluded |
| App.CancelTarget | App.tsx:88 | exactly the id of the first table-4 ticket that is not paid (cancelled and request tickets included) when that id is non-empty; none when that id is empty or there is no such ticket |
| App.CancelOrderCalls | App.tsx:86-99 | calls exactly when there is a target and the dialog is confirmed: the cancel call, then a refresh when it succeeds or the alert when it is rejected |
| App.MarkReadyCalls | App.tsx:102-105 | a ready update first, and a refresh exactly when that update succeeded |
| App.SettleTableCalls | App.tsx:120-124 | no call exactly when the dialog is declined; otherwise the settle first, and a refresh exactly when it succeeded |
| App.FindById | App.tsx:109 | the first ticket with the id, or none when no ticket has it |
| App.MarkServedSequence | App.tsx:108-118 | a bill request is settled (exactly when confirmed, with the ticket's own table, read back by the backend) and then marked served, but a rejected settle stops before the served update; any other ticket is marked served first and refreshed exactly when that succeeded |
| SmartCart.Gst | components/SmartCart.tsx:186 | the GST is the whole number nearest to 5% of the amount, halves rounded up |
| SmartCart.ServiceCharge | components/SmartCart.tsx:187 | the service charge is the whole number nearest to 2.5% of the amount, halves rounded up |
| SmartCart.ChargesAsIntegerFormulas | components/SmartCart.tsx:186-187 | on a non-negative amount x the two charges are (5x+50)/100 and (x+20)/40 |
| SmartCart.ComputeBill | components/SmartCart.tsx:182-189 | the subtotal is Σ price × quantity; the amount charged is the subtotal less the discount, clamped at 0; each charge is rounded on its own from that amount, and the total adds the three |
| SmartCart.BillNearExact | components/SmartCart.tsx:182-189 | the total is within one rupee of 107.5% of the discounted subtotal and never below it |
| SmartCart.ChargesNearExact | components/SmartCart.tsx:186-189 | the same bound for any non-negative amount and its two charges |
| SmartCart.FullDiscountIsFree | components/SmartCart.tsx:185-189 | a discount at least the subtotal makes the bill 0 |
| SmartCart.OfferedPicks | components/SmartCart.tsx:109-139 | at most three suggestions, each offered exactly when its rule fires, none twice |
| SmartCart.SuggestionRules | components/SmartCart.tsx:51-141 | no suggestion for an empty cart; the lime soda exactly when there is a main, starter or bread and no beverage, the parotta exactly when there is a main and no bread, the payasam exactly when the subtotal exceeds 500 and there is no dessert; no suggestion is from a category already in the cart |
| SmartCart.CartPanel.constructor | components/SmartCart.tsx:91-94 | the sheet starts closed (its open flag stands for the parent's `isOpen`), with no coupon, no discount and no toast |
| SmartCart.CartPanel.OnCartChanged | components/SmartCart.tsx:143-149 | an emptied cart drops the coupon and the discount; otherwise nothing changes |
| SmartCart.CartPanel.ApplyCoupon | components/SmartCart.tsx:169-174 | the coupon and discount are set and the toast shows the description, or "Coupon Applied!" when it is empty |
| SmartCart.CartPanel.RemoveCoupon | components/SmartCart.tsx:176-179 | the coupon and discount are cleared, nothing else changes |
| SmartCart.CartPanel.PlaceOrder | components/SmartCart.tsx:156-167 | the whole cart is handed on, the coupon and discount are cleared and the sheet closes |
| Offers.Eligible | components/OffersModal.tsx:96-98 | exactly the cart lines in the offer's category |
| Offers.MinPrice | components/OffersModal.tsx:105-106 | the least price among the lines, attained by one of them |
| Offers.Validate | components/OffersModal.tsx:78-119 | below the minimum the refusal names the missing amount; an applied offer keeps its code, has a positive discount and met the minimum; flat gives the value, percent the rounded share of the cart total, a free item either the cap or one eligible line's price |
| Offers.FreeItemBounds | components/OffersModal.tsx:95-110 | with no line of the category the refusal asks for one; an applied free item is no more than the cap and no more than any eligible line's price |
| Offers.PercentWithinTotal | components/OffersModal.tsx:92-94 | a percentage of at most 100 never discounts more than the cart total |
| Offers.Welcome100Rule | components/OffersModal.tsx:17-25 | WELCOME100 applies exactly from a total of 500, for 100 off |
| Offers.Hdfc5Rule | components/OffersModal.tsx:36-44 | HDFC5 applies exactly from a total of 10, the first total whose rounded 5% is positive |
| Offers.SweetToothRule | components/OffersModal.tsx:26-35 | SWEETTOOTH applies exactly from a total of 300 with a dessert in the cart and every dessert priced above 0 |
| Offers.FindOffer | components/OffersModal.tsx:123 | found exactly for the three codes, returning the table's entry with that code |
| Offers.NormalCodeIdempotent | components/OffersModal.tsx:122 | trimming and upper-casing twice is the same as once |
| Offers.UpperOfTrimmed | components/OffersModal.tsx:122 | upper-casing a trimmed code leaves it trimmed |
| Offers.ApplyCode | components/OffersModal.tsx:121-130 | an unknown code is refused as invalid; a known one is validated |
| Offers.ManualApply | components/OffersModal.tsx:121-130 | the typed code is trimmed and upper-cased before the lookup |
| Offers.ManualApplyNormalises | components/OffersModal.tsx:121-130 | typing the normalised code gives the same verdict as typing the raw one |
| Offers.OffersSheet.constructor | components/OffersModal.tsx:62-63 | the input is empty and there is no error |
| Offers.OffersSheet.Open | components/OffersModal.tsx:66-70 | opening clears the input and the error |
| Offers.OffersSheet.ValidateAndApply | components/OffersModal.tsx:78-119 | an accepted offer is handed on with the error untouched; a refused one sets the error to the refusal's text |
| Offers.OffersSheet.ManualApplyTyped | components/OffersModal.tsx:121-130 | the typed input is applied or its refusal shown as the error |
| SmartMenu.QuantityUpdatedKeepsOthers | components/SmartMenu.tsx:133-135 | a quantity change leaves every other line as it was, in order |
| SmartMenu.QuantityUpdatedTarget | components/SmartMenu.tsx:133-135 | after the change the target line is present exactly when its old quantity plus the delta is positive, with that new quantity |
| SmartMenu.CartCountAfterUpdate | components/SmartMenu.tsx:133-183 | with unique line ids, the item count grows by the delta, or loses the line's whole quantity when the line is removed |
| SmartMenu.UntouchedCount | components/SmartMenu.tsx:133-135 | an id no line has changes nothing |
| SmartMenu.LastSize | components/SmartMenu.tsx:140-147 | the size quick-add uses is the last size of a portion item that has sizes |
| SmartMenu.QuickMatch | components/SmartMenu.tsx:140 | the line a quick add bumps is the first cart line with the item's id, no notes, and no size or the last size; when none is found no line matches |
| SmartMenu.QuickEntry | components/SmartMenu.tsx:143-148 | a new quick-add line has quantity 1, empty notes, the item's id, and the last size's price for a portion item, else the item's price; it matches the item |
| SmartMenu.QuickAddCount | components/SmartMenu.tsx:139-150 | on a cart of unique ids and positive quantities a quick add raises the item count by exactly one and leaves a matching line |
| SmartMenu.FindAddon | components/SmartMenu.tsx:154 | the add-on found is the first one with the name; when none is found no add-on has it |
| SmartMenu.UnknownAddonAddsNothing | components/SmartMenu.tsx:153-154 | an add-on name the item does not offer adds nothing to the price |
| SmartMenu.TakenSuggestionWithdrawn | components/SmartMenu.tsx:162 | once a suggestion is added to the cart it is no longer suggested |
| SmartMenu.MenuCart.constructor | components/SmartMenu.tsx:137 | the cart starts empty |
| SmartMenu.MenuCart.UpdateQuantity | components/SmartMenu.tsx:133-135 | the cart becomes the quantity-updated cart |
| SmartMenu.MenuCart.QuickAdd | components/SmartMenu.tsx:139-150 | a matching line is bumped by one, otherwise a new line is appended |
| SmartMenu.MenuCart.DetailedAdd | components/SmartMenu.tsx:152-159 | one line is appended with the size's (or item's) price plus each offered add-on's price, the size's label, and the non-empty notes and add-on names joined by ", " |
| SmartMenu.MenuCart.RemoveItem | components/SmartMenu.tsx:161 | exactly the lines with another id remain, in order |
| SmartMenu.MenuCart.AddSuggestion | components/SmartMenu.tsx:162 | the suggestion is appended as a new line |
| SmartMenu.MenuCart.Clear | components/SmartMenu.tsx:137 | the cart becomes empty |
| SmartMenu.MoodRules | components/SmartMenu.tsx:207-209 | the three mood bonuses (25, 20, 15) add up to between 0 and 60 |
| SmartMenu.GoalRules | components/SmartMenu.tsx:213-216 | one goal's three bonuses add up to between 0 and 50 |
| SmartMenu.GoalBonus | components/SmartMenu.tsx:212-217 | a goal, normalised, is worth between 0 and 50 |
| SmartMenu.GoalsBonus | components/SmartMenu.tsx:212-217 | the goals together are worth between 0 and 50 per goal |
| SmartMenu.DietPointsBounds | components/SmartMenu.tsx:220-221 | the diet bonus is between 0 and 10 |
| SmartMenu.TotalBonusBounds | components/SmartMenu.tsx:206-224 | all bonuses together lie between 0 and 80 plus 50 per goal |
| SmartMenu.Scored | components/SmartMenu.tsx:226 | the score is 60 plus the bonus; the match percentage is the score clamped to 60-99; the explanation is "Chef's Pick" without reasons and "Matches" plus the first reason otherwise |
| SmartMenu.Enrich | components/SmartMenu.tsx:195-227 | the item is kept, its score lies between 60 and 140 plus 50 per goal, the match percentage is the score up to 99 |
| SmartMenu.ApplyMoods | components/SmartMenu.tsx:207-209 | the accumulated score and reasons are the mood bonus |
| SmartMenu.ApplyGoal | components/SmartMenu.tsx:213-216 | one goal's rules add their points and reasons to the running total |
| SmartMenu.ApplyGoals | components/SmartMenu.tsx:212-217 | the loop over the goals adds every goal's bonus, in order |
| SmartMenu.ApplyDietAndBestseller | components/SmartMenu.tsx:220-224 | the diet points and the bestseller bonus are added last |
| SmartMenu.ScoreItem | components/SmartMenu.tsx:195-227 | the step-by-step scoring gives exactly the enriched item |
| SmartMenu.NoMoodPoints | components/SmartMenu.tsx:207-209 | without moods there are no mood points |
| SmartMenu.DefaultDietPoints | components/SmartMenu.tsx:203-221 | with no dietary preference the default non-veg gives 5 points to non-veg items only |
| SmartMenu.NoPreferencesScore | components/SmartMenu.tsx:195-227 | a guest without preferences sees 60, plus 5 for non-veg, plus 10 for a bestseller or popular dish |
| SmartMenu.EnrichAll | components/SmartMenu.tsx:195 | every item is enriched in place |
| SmartMenu.Passes | components/SmartMenu.tsx:188-193 | an item passes the filters exactly when it is in the menu, matches the lower-cased query in its name or category (or the query is blank), and is in the category (or the category is All) |
| SmartMenu.EnrichAllMembership | components/SmartMenu.tsx:195 | an item's enrichment is in the list exactly when the item is |
| SmartMenu.ProcessedMenuOrdered | components/SmartMenu.tsx:186-228 | the processed menu is ordered by descending score and no longer than the menu |
| SmartMenu.ProcessedMenuContents | components/SmartMenu.tsx:186-228 | an item's enrichment is in the processed menu exactly when the item passes the search and category filters |
| SmartMenu.TopPicksPrefix | components/SmartMenu.tsx:233-234 | on a list already ranked, the top picks are its first three |
| SmartMenu.StandardItemsDisjoint | components/SmartMenu.tsx:235-236 | no standard item shares an id with a top pick |
| SmartMenu.StandardItemsOfRanked | components/SmartMenu.tsx:233-236 | on a ranked list the rest is the list without the top three's ids |
| SmartMenu.TopPicksThenStandard | components/SmartMenu.tsx:230-238 | on a ranked list with unique ids, top picks followed by the rest is the whole list |
| SmartMenu.TopPicksSplit | components/SmartMenu.tsx:230-238 | for the processed menu the top picks are its first three, and with unique ids top picks plus the rest give it back |
| SmartMenu.CapitalizeAll | components/SmartMenu.tsx:40 | each word has its first character upper-cased |
| SmartMenu.Shaped | components/SmartMenu.tsx:38-41 | the label is as long as the text |
| SmartMenu.FormatPieces | components/SmartMenu.tsx:40 | splitting at underscores, capitalising and joining with spaces is the character-by-character shaping |
| SmartMenu.FormatTextShaped | components/SmartMenu.tsx:38-41 | the label replaces each underscore by a space and upper-cases the first character of each word, keeping the length |
| FoodDetail.AddonsPriceAppend | components/FoodDetailModal.tsx:89-92 | the add-on total of two selections is the sum of their totals |
| FoodDetail.AddonsPriceOne | components/FoodDetailModal.tsx:89-92 | a single selected name costs its offered add-on's price, or 0 when the item does not offer it |
| FoodDetail.AddonsPriceWithout | components/FoodDetailModal.tsx:69-92 | removing every copy of a name lowers the add-on total by the name's price once per copy |
| FoodDetail.WithoutLast | components/FoodDetailModal.tsx:69-70 | the step of that removal for the last name of the selection |
| FoodDetail.ToggleAddonPrice | components/FoodDetailModal.tsx:68-92 | toggling on an unselected add-on adds its price to the total; toggling off a selected one removes its price once per copy |
| FoodDetail.ShownTotalIsLineTotal | components/FoodDetailModal.tsx:84-96 | the total the sheet shows equals the line total of the cart line the menu then appends |
| FoodDetail.LowerAll | components/FoodDetailModal.tsx:99-108 | each reason lower-cased, in place |
| FoodDetail.MenuReasons | components/SmartMenu.tsx:207-215 | the menu's reasons for these matches are spelled "High Protein" and "Spicy Craving" |
| FoodDetail.InsightMissesMenuReasons | components/FoodDetailModal.tsx:99-108 | as written: a 95% match whose reason is "High Protein" or "Spicy Craving" gets the generic insight |
| FoodDetail.HighProteinLacksWords | components/FoodDetailModal.tsx:101 | "High Protein" contains neither "protein" nor "spicy" |
| FoodDetail.SpicyCravingLacksWords | components/FoodDetailModal.tsx:103 | "Spicy Craving" contains neither "protein" nor "spicy" |
| FoodDetail.CaselessInsightFindsMenuReasons | components/FoodDetailModal.tsx:99-108 | with the reasons lower-cased first, "High Protein" gives the protein insight and "Spicy Craving" the spice insight |
| FoodDetail.CaselessInsightExtends | components/FoodDetailModal.tsx:99-108 | the caseless test finds whatever the as-written test finds, and both agree at 90% and below |
| FoodDetail.DetailSheet.constructor | components/FoodDetailModal.tsx:33-38 | quantity 1, no size, empty notes and add-ons, pairing not added |
| FoodDetail.DetailSheet.Open | components/FoodDetailModal.tsx:41-59 | opening resets quantity to 1, notes, add-ons and the pairing flag, and selects the last size of a portion item with sizes, otherwise none |
| FoodDetail.DetailSheet.ToggleAddon | components/FoodDetailModal.tsx:68-72 | a selected name is removed (every copy), an unselected one appended; nothing else changes |
| FoodDetail.DetailSheet.SelectSize | components/FoodDetailModal.tsx:249 | the chosen size of the item becomes the selected size |
| FoodDetail.DetailSheet.SetNotes | components/FoodDetailModal.tsx:297 | the notes become the typed text |
| FoodDetail.DetailSheet.Increment | components/FoodDetailModal.tsx:355 | the quantity grows by one |
| FoodDetail.DetailSheet.Decrement | components/FoodDetailModal.tsx:348 | the quantity shrinks by one, never below 1 |
| FoodDetail.DetailSheet.AddPairing | components/FoodDetailModal.tsx:74-80 | without a pairing nothing happens; otherwise the pairing is added once with quantity 1 and the flag is set |
| FoodDetail.DetailSheet.AddToCart | components/FoodDetailModal.tsx:365-368 | the request carries the sheet's item, quantity (at least 1), notes, add-ons and size, and the cart line it produces costs exactly the shown total |
| Payment.BillIsCartBillWithoutCoupon | components/PaymentModal.tsx:156-159 | the payment sheet's bill is the cart's bill with no discount, within one rupee of 107.5% of the subtotal |
| Payment.ChargesMonotone | components/PaymentModal.tsx:157-158 | a larger subtotal never has smaller charges |
| Payment.CouponNotCarriedOver | components/PaymentModal.tsx:156-159 | with a positive subtotal and a positive coupon discount, the payment sheet charges at least one rupee more than the cart showed |
| Payment.CountdownRunsOut | components/PaymentModal.tsx:72-85 | after success, a countdown from c ≥ 1 runs k < c seconds down to c − k without completing, and completes in the c-th second, the one that reaches 0 |
| Payment.CancelledCountdownNeverFires | components/PaymentModal.tsx:73-89 | a cancelled countdown never completes, however many ticks pass |
| Payment.PaymentSheet.constructor | components/PaymentModal.tsx:43-50 | no method, idle, no rating, no countdown |
| Payment.PaymentSheet.Open | components/PaymentModal.tsx:53-63 | opening resets to no method, idle, no rating and no countdown, so Pay is disabled |
| Payment.PaymentSheet.ChooseMethod | components/PaymentModal.tsx:305-331 | the chosen method is set, and Pay is enabled unless a payment is processing |
| Payment.PaymentSheet.Confirm | components/PaymentModal.tsx:162-182 | with no method nothing happens; otherwise the sheet is processing, or back to idle with the failure alert when the settle hook rejects |
| Payment.PaymentSheet.DelayElapsed | components/PaymentModal.tsx:66-175 | the sheet shows success and a fresh 15-second countdown starts, unless it already showed success |
| Payment.PaymentSheet.Tick | components/PaymentModal.tsx:72-85 | one second of a running countdown, completing the payment in the second that reaches 0, only while the sheet shows success |
| Payment.PaymentSheet.Rate | components/PaymentModal.tsx:91-94 | a rating stops the countdown and records the stars |
| Payment.PaymentSheet.OrderMore | components/PaymentModal.tsx:150-153 | keeping on ordering stops the countdown |
| Payment.ServerLines | components/PaymentModal.tsx:111-121 | each fetched item becomes a receipt line with id "server-k", menu id "uk", category Mains and the item's name, price, quantity and notes |
| Payment.CartLines | components/PaymentModal.tsx:101 | each cart line is printed as it is |
| Payment.CartLinesTotal | components/PaymentModal.tsx:137 | the receipt's computed total over cart lines is the cart's subtotal |
| Payment.ReceiptFallsBackToCart | components/PaymentModal.tsx:101-140 | without an order id or a fetched item list, the receipt prints the cart with its subtotal |
| Payment.ReceiptFromServer | components/PaymentModal.tsx:105-140 | with a fetched order, the receipt prints its items, with the server's total unless that is missing or 0, then the computed sum |
| OrderTracker.StatusFlags | components/OrderTracker.tsx:140-144 | cancelling is offered exactly for a placed order; a cancellable order is cooking; no order is both cooking and served; the paid footer shows exactly when paid, the served footer exactly when served, and the cooking footer for placed, cooking, ready and cancelled, a cancelled order not counting as cooking |
| OrderTracker.FifthTapOpensKitchen | components/OrderTracker.tsx:88-104 | the first four taps only count, and the fifth opens the kitchen view and resets the counter |
| OrderTracker.TapsFrom | components/OrderTracker.tsx:102-104 | taps that stay below five only add to the counter |
| OrderTracker.TapsSplit | components/OrderTracker.tsx:88-104 | a run of taps is its first part followed by the rest |
| OrderTracker.Tracker.constructor | components/OrderTracker.tsx:58-85 | nothing requested, no taps, no modal, no toast, no feedback |
| OrderTracker.Tracker.OpenServiceModal | components/OrderTracker.tsx:107-109 | the service modal opens, nothing else changes |
| OrderTracker.Tracker.ServiceRequest | components/OrderTracker.tsx:111-124 | the request is sent as chosen, the modal closes, the waiter counts as called and the toast names the request for table 4 |
| OrderTracker.Tracker.CooldownElapsed | components/OrderTracker.tsx:118-120 | two minutes later the waiter can be called again |
| OrderTracker.Tracker.ToastElapsed | components/OrderTracker.tsx:123 | the toast disappears |
| OrderTracker.Tracker.RequestBill | components/OrderTracker.tsx:126-130 | a "Request Bill" request is sent, the bill counts as requested and the payment sheet opens |
| OrderTracker.Tracker.Feedback | components/OrderTracker.tsx:132-137 | the vote for the item is recorded, replacing an earlier one; every other item's vote is kept |
| OrderTracker.Tracker.SecretTap | components/OrderTracker.tsx:88-104 | a tap counts one more, and the fifth opens the kitchen view and resets the counter |
| OrderTracker.Tracker.TapWindowElapsed | components/OrderTracker.tsx:90-92 | two seconds without a tap reset the counter |
| SplashLanding.FirstDigits | components/SplashLanding.tsx:456-457 | the first ten digits of the input, in order |
| SplashLanding.FormattedPhone | components/SplashLanding.tsx:454-465 | the formatted number holds exactly those digits: up to five as they are, more split by one space after the fifth |
| SplashLanding.FormatPhoneIdempotent | components/SplashLanding.tsx:454-465 | formatting a formatted number changes nothing |
| SplashLanding.FormattedPassesCheck | components/SplashLanding.tsx:454-490 | a formatted input passes the ten-digit check exactly when the input had at least ten digits |
| SplashLanding.InitialView | components/SplashLanding.tsx:133-137 | without a session the landing page; with one, its stored view, or the menu when none is stored |
| SplashLanding.FullOrderItemsSource | components/SplashLanding.tsx:1196-1221 | the server order's items when it has any, in order with their names, prices and quantities; otherwise the local list |
| SplashLanding.RestoredLines | components/SplashLanding.tsx:396-406 | each server item becomes a line "restored-k" of menu id "uk" and category Mains with its name, price, quantity and notes |
| SplashLanding.TrackerStatus | components/SplashLanding.tsx:1234-1270 | the thank-you screen shows paid; otherwise the order's status, or placed when there is none |
| SplashLanding.Landing.constructor | components/SplashLanding.tsx:107-113 | the initial view, the session's name or "Guest", the session's table or "4", a blank form and no items |
| SplashLanding.Landing.InputChange | components/SplashLanding.tsx:470-479 | while loading nothing changes; otherwise the number is stored formatted and the error cleared |
| SplashLanding.Landing.SubmitCheck | components/SplashLanding.tsx:484-510 | a number without exactly ten digits raises the error and stops; otherwise loading starts with the country code, a space and the digits as the verified number |
| SplashLanding.Landing.OnStatusChanged | components/SplashLanding.tsx:372-384 | a served order moves the guest to the tracker from any view |
| SplashLanding.Landing.OnViewChanged | components/SplashLanding.tsx:168-173 | a served order moves the menu to the tracker |
| SplashLanding.Landing.OnSessionChanged | components/SplashLanding.tsx:223-257 | a session sets the name and table and leaves the landing page for its stored view or the menu; no session forces the landing page |
| SplashLanding.SessionSeen | services/api.ts:238-247 | the screen sees an active session exactly when the backend answered 2xx with one; an error status or a thrown fetch reads as inactive |
| SplashLanding.Landing.DetectTableAndName | components/SplashLanding.tsx:296-330 | a `table` URL parameter sets the table, a stored name other than "Guest" is greeted as a returning guest, and the table looked up is the parameter or else the first render's table, none when both are empty |
| SplashLanding.Landing.RecoverSession | components/SplashLanding.tsx:328-355 | an active table session opens the tracker as a returning user with the session's guest name or "Guest"; an inactive, rejected or failed one changes nothing |
| SplashLanding.Landing.StartUp | components/SplashLanding.tsx:296-362 | the detected table's session on the backend opens the tracker exactly when that table has an open order; without a table, a server, or an open order the view stays |
| SplashLanding.Landing.SyncActiveItems | components/SplashLanding.tsx:388-420 | an empty local list is restored from the server order, taking its guest name when it has one; otherwise nothing changes |
| SplashLanding.Landing.PlaceOrder | components/SplashLanding.tsx:1046-1056 | the cart is sent with the guest's name and table, kept as the local list, and the tracker opens here and in the context's view, nothing else in the context changing |
| SplashLanding.Landing.CancelOrder | components/SplashLanding.tsx:1060-1070 | the parent's cancel handler runs over the context's tickets (its calls returned), the local list is emptied and the menu opens here and in the context's view |
| SplashLanding.Landing.SyncViewToContext | components/SplashLanding.tsx:178-195 | with a session and off the landing page the context's view becomes the screen's view (so the session reports it); otherwise the context is unchanged |
| SplashLanding.Landing.PaymentSuccess | components/SplashLanding.tsx:1154-1164 | the thank-you screen shows on the tracker, with the status shown as paid |
| SplashLanding.Landing.SessionReset | components/SplashLanding.tsx:1110-1150 | no thank-you and no items; the phone fields cleared, the country code "+91" and the returning flag off, with the error and loading flags kept; "Guest" at table 4 on the landing page; the context logged out (no user, no table, no tickets, no guest session) and the user id, session and `userPrefs` keys removed from storage |
| KitchenDisplay.KitchenOrdersSpec | components/KitchenDisplay.tsx:20-24 | the list is ordered by creation time, holds exactly the placed food tickets, and each as often as in the input |
| KitchenDisplay.CardOf | components/KitchenDisplay.tsx:73-115 | one row per item of the ticket |
| KitchenDisplay.CardRows | components/KitchenDisplay.tsx:73-115 | an item is greyed, struck through and marked served exactly when its status is served, and shows the New badge otherwise; its notes show as a warning exactly when non-empty; the ready button sends the ticket's id |
| ServiceDashboard.ListsSpec | components/ServiceDashboard.tsx:17-23 | pickup holds exactly the ready food tickets; requests exactly the request tickets still placed, cooking or ready; no ticket is in both |
| ServiceDashboard.ElapsedMinutes | components/ServiceDashboard.tsx:25-27 | the whole minutes since creation, rounded down |
| ServiceDashboard.ElapsedMinutesUnique | components/ServiceDashboard.tsx:25-27 | those bounds determine the minutes |
| ServiceDashboard.EmptyRequestRings | components/ServiceDashboard.tsx:29-35 | a request without items is named "Request" and gets the bell |
| ServiceDashboard.LabelMatchesIcon | components/ServiceDashboard.tsx:29-35 | a "Mark Paid & Close" button goes with the bill icon unless the name also mentions water, and every bill icon on a request with items gets that button |
| ServiceDashboard.ManualSettle | components/ServiceDashboard.tsx:37-42 | the settle call is made exactly when a non-empty table id is entered and a handler is given, with that id |
| Tally.AddSale | pages/ManagerDashboard.tsx:42-44 | adding a sale keeps the list or adds one entry |
| Tally.AddSaleSpec | pages/ManagerDashboard.tsx:40-45 | on a dictionary of distinct names, a sale keeps them distinct, lists its name, and adds its quantity to that name's count only |
| Tally.CountAbsentHead | pages/ManagerDashboard.tsx:40-45 | a first entry under another name does not affect a name's count |
| Tally.ListedCons | pages/ManagerDashboard.tsx:40-45 | a name is listed in a longer dictionary exactly when it is the first entry's or listed in the rest |
| Tally.LinesAppendOne | pages/ManagerDashboard.tsx:41-44 | the item lines of one more order are the earlier lines followed by its items |
| Tally.TalliedSnoc | pages/ManagerDashboard.tsx:40-45 | tallying one more line is one more sale |
| Tally.TalliedSpec | pages/ManagerDashboard.tsx:40-45 | the tally has distinct names, lists exactly the names sold, and counts for each the total quantity sold under it |
| KitchenDashboard.ViewsSpec | components/KitchenDashboard.tsx:258-259 | the kitchen column holds exactly the new and cooking tickets, the ready column exactly the ready ones, and none is in both |
| KitchenDashboard.SetStatusWhere | components/KitchenDashboard.tsx:164-183 | every ticket with the id gets the status, every other is unchanged, in place |
| KitchenDashboard.FindTicket | components/KitchenDashboard.tsx:190 | the ticket found is the first in the list with the id; none is found exactly when no ticket has it |
| KitchenDashboard.LiveOrderInsertedOnce | components/KitchenDashboard.tsx:142-169 | the first injection puts the live ticket in front of the list; a later one only updates that ticket's status |
| KitchenDashboard.PlacedLiveOrderHidden | components/KitchenDashboard.tsx:155-259 | as written: a guest order still "placed" is injected with that status and appears in neither column |
| KitchenDashboard.PlacedLiveOrderShown | components/KitchenDashboard.tsx:155-259 | with "placed" read as "new", the injected order appears in the kitchen column; any other status is kept |
| KitchenDashboard.BestOfSpec | components/KitchenDashboard.tsx:237-244 | the best seller has the largest count, is the first entry with it, and is nameless with count 0 when nothing sold |
| KitchenDashboard.AverageOrderValue | components/KitchenDashboard.tsx:233-234 | the rounded revenue per ticket, or 0 without tickets |
| KitchenDashboard.RevenueSnoc | components/KitchenDashboard.tsx:225-231 | one more line adds its menu price (0 when the name is not on the menu) times its quantity |
| KitchenDashboard.BestOfSnoc | components/KitchenDashboard.tsx:239-244 | one more entry replaces the best only with a strictly larger count |
| KitchenDashboard.TallyLines | components/KitchenDashboard.tsx:226-230 | the loop over a ticket's lines extends the revenue and the per-name tally by those lines |
| KitchenDashboard.BestSeller | components/KitchenDashboard.tsx:237-244 | the loop over the tally finds the best entry |
| KitchenDashboard.Board.constructor | components/KitchenDashboard.tsx:136-138 | the board starts from the given tickets, history and tasks |
| KitchenDashboard.Board.InjectLiveOrder | components/KitchenDashboard.tsx:142-169 | a guest order with items is put in front once, with the alert, with its status cast unchanged (a placed order joins no column), and later only has its status updated; an empty or missing one changes nothing |
| KitchenDashboard.Board.MarkReady | components/KitchenDashboard.tsx:181-185 | every ticket with the id becomes ready, the rest are unchanged |
| KitchenDashboard.Board.MarkServed | components/KitchenDashboard.tsx:188-196 | a known ticket moves, marked served, to the front of the history, with the chime; an unknown id changes nothing; afterwards no ticket has the id |
| KitchenDashboard.Board.CompleteTask | components/KitchenDashboard.tsx:198-200 | exactly the service tasks with another id remain |
| KitchenDashboard.Board.Analytics | components/KitchenDashboard.tsx:214-255 | revenue over every line of open and finished tickets at menu prices, the ticket count, the rounded average, the best seller looked up on the menu, and the five latest finished tickets |
| ManagerDashboard.RoundReal | pages/ManagerDashboard.tsx:77 | the whole number nearest to the amount |
| ManagerDashboard.RevenueCountsPaidOnly | pages/ManagerDashboard.tsx:30-31 | one more order adds its amount (0 when missing) to the revenue exactly when it is paid |
| ManagerDashboard.ActiveCountSpec | pages/ManagerDashboard.tsx:37 | the live orders are all orders but the paid and cancelled ones |
| ManagerDashboard.AverageTicketBounds | pages/ManagerDashboard.tsx:34 | with paid orders, the average lies between their smallest and largest amounts |
| ManagerDashboard.MeanBounds | pages/ManagerDashboard.tsx:34 | the mean of amounts within bounds lies within them |
| ManagerDashboard.SumBounds | pages/ManagerDashboard.tsx:31 | the sum of n amounts within bounds lies between n times each bound |
| ManagerDashboard.ItemCounts | pages/ManagerDashboard.tsx:40-45 | the nested loops give the tally of every item line of the paid orders |
| ManagerDashboard.CountItems | pages/ManagerDashboard.tsx:42-44 | the inner loop extends the tally by one order's lines |
| ManagerDashboard.BestSellerSpec | pages/ManagerDashboard.tsx:47 | no best seller exactly when nothing sold; otherwise the first entry with the largest count |
| ManagerDashboard.Reversed | pages/ManagerDashboard.tsx:109 | the list backwards |
| ManagerDashboard.RecentSpec | pages/ManagerDashboard.tsx:109 | the recent list holds the last ten paid orders (or all of them), newest first |
| ManagerDashboard.Overview.constructor | pages/ManagerDashboard.tsx:8-9 | no orders yet, loading |
| ManagerDashboard.Overview.Load | pages/ManagerDashboard.tsx:11-20 | a successful fetch replaces the orders, a failed one keeps them; loading ends either way |
| AdminDashboard.AnalyticsOfPaidMatching | components/AdminDashboard.tsx:46-68 | over all paid orders the back end matches, revenue is the sum of their totals and the count their number |
| AdminDashboard.AnalyticsOfPaidOrders | components/AdminDashboard.tsx:46-68 | over the back end's capped paid listing, revenue and count are those of all paid orders when at most 1000 are paid, and the count is 1000 otherwise |
| AdminDashboard.WithTag | components/AdminDashboard.tsx:114-119 | a blank tag input changes nothing; otherwise its trimmed text is appended |
| AdminDashboard.AddedTagsTrimmed | components/AdminDashboard.tsx:114-119 | tags added this way stay non-empty and trimmed |
| AdminDashboard.RemoveTagSpec | components/AdminDashboard.tsx:367 | removing a tag keeps exactly the other tags |
| AdminDashboard.Admin.constructor | components/AdminDashboard.tsx:21-39 | no orders or menu yet, loading, the modal closed, the default draft (Mains, available, veg, medium) and an empty tag input |
| AdminDashboard.Admin.FetchData | components/AdminDashboard.tsx:42-57 | fetched orders replace the orders, and the menu too when both fetches succeed; loading ends either way |
| AdminDashboard.Admin.ToggleAvailability | components/AdminDashboard.tsx:71-81 | after a successful call the item's availability flips; a failed call alerts and changes nothing |
| AdminDashboard.Admin.DeleteItem | components/AdminDashboard.tsx:83-91 | nothing is called without confirmation; a confirmed, successful delete drops the item; a failed one alerts |
| AdminDashboard.Admin.AddItem | components/AdminDashboard.tsx:93-112 | a draft without name or price is refused with an alert; otherwise it is sent, and on success the created item is appended, the modal closes and the draft and tag input reset; a failure alerts and changes nothing |
| AdminDashboard.Admin.AddTag | components/AdminDashboard.tsx:114-119 | a non-blank input is added, trimmed, to the draft's tags and cleared |
| AdminDashboard.Admin.RemoveTag | components/AdminDashboard.tsx:367 | every copy of the tag leaves the draft |
| UserDb.Lookup | services/db.ts:29-39 | a profile exactly when the store is readable and holds the phone, and then that profile |
| UserDb.CreateIdempotent | services/db.ts:42-61 | creating twice is creating once; an existing profile is kept; a new one has no preferences and both dates set to now |
| UserDb.SaveEffect | services/db.ts:64-87 | saving sets the preferences and the login time, keeps the phone and creation date of an existing profile (or creates one), adds only that phone and leaves every other profile alone |
| UserDb.SaveThenLookup | services/db.ts:29-87 | after saving, a lookup finds the profile with the saved preferences |
| UserDb.ProfileStore.constructor | services/db.ts:22 | the store starts from what local storage holds |
| UserDb.ProfileStore.GetUser | services/db.ts:29-39 | the lookup, with an unreadable store read as no profile |
| UserDb.ProfileStore.CreateUser | services/db.ts:42-61 | an unreadable store fails and is left alone; an existing profile is returned unchanged; otherwise a new profile is stored and returned |
| UserDb.ProfileStore.SavePreferences | services/db.ts:64-87 | an unreadable store fails and is left alone; otherwise the saved store is written and the saved profile returned |
| Menu.FindByName | components/KitchenDashboard.tsx:217-219 | the item found is the first menu item with the name; when none is found no item has it |
| Menu.ToggledAvailability | components/AdminDashboard.tsx:75-77 | every item with the id has its availability flipped, the rest are unchanged, in place |
| Menu.ToggleTwice | components/AdminDashboard.tsx:75-77 | toggling twice restores the menu |
| Menu.WithoutIdSpec | components/AdminDashboard.tsx:87 | deleting keeps exactly the items with another id; deleting twice is deleting once; an absent id changes nothing |
| Menu.ReplacedWhere | pages/InventoryDashboard.tsx:41-48 | every item with the id is replaced by the server's copy, the rest are unchanged, in place |
| JsNumber.LeadingDigits | pages/InventoryDashboard.tsx:74-75 | the longest run of digits at the start of the text |
| JsNumber.LeadingDigitsOf | pages/InventoryDashboard.tsx:74-75 | digits followed by a non-digit are read up to that non-digit |
| JsNumber.DecimalParts | pages/InventoryDashboard.tsx:65 | the whole digits and the fraction digits at the start of the text, both digit runs, and the text after them |
| JsNumber.ParseFloatPrefix | pages/InventoryDashboard.tsx:65 | a number read by parseFloat has only digits after its point |
| JsNumber.NumberOf | App.tsx:61 | a number read by Number has only digits after its point |
| JsNumber.TrimStartNoSpace | pages/InventoryDashboard.tsx:74-75 | a text that does not start with a space is left as it is by the leading trim |
| JsNumber.Reading | pages/InventoryDashboard.tsx:65 | the reading of a sign, whole digits and fraction digits |
| JsNumber.ValueWhole | pages/InventoryDashboard.tsx:65 | a whole reading has its integer value |
| JsNumber.ParseIntPrefixSteps | pages/InventoryDashboard.tsx:74-75 | parseInt reads the optional sign and then the leading digits |
| JsNumber.ParseIntPrefixOfDigits | pages/InventoryDashboard.tsx:74-75 | parseInt of digits followed by a non-digit is their value, negated after a minus |
| JsNumber.ParseIntPrefixOfText | pages/InventoryDashboard.tsx:74-75 | parseInt reads back any integer's decimal text, whatever non-digit follows |
| JsNumber.ParseIntPrefixOfNumeral | pages/InventoryDashboard.tsx:74-75 | the same for any spelling of the integer's digits |
| JsNumber.BlankText | pages/InventoryDashboard.tsx:65 | parseInt and parseFloat read nothing from the empty text, while Number reads it as 0 |
| JsNumber.DecimalPartsOfDigits | pages/InventoryDashboard.tsx:65 | plain digits are all whole digits, with no fraction and nothing after them |
| JsNumber.DigitsRead | pages/InventoryDashboard.tsx:65 | plain digits read as their value under parseFloat and Number |
| JsNumber.NegativeDigitsRead | App.tsx:62 | a minus sign before plain digits reads under Number as the negated value |
| JsNumber.WholeNumberText | pages/InventoryDashboard.tsx:65 | a natural number's decimal text reads back as that number |
| InventoryDashboard.TrimmedAll | pages/InventoryDashboard.tsx:72 | every piece trimmed, in place |
| InventoryDashboard.ParsedTagsClean | pages/InventoryDashboard.tsx:72 | every parsed tag is non-empty, trimmed and free of commas |
| InventoryDashboard.SplitJoin | pages/InventoryDashboard.tsx:72 | splitting comma-joined comma-free pieces gives them back |
| InventoryDashboard.ParsedTagsOfJoin | pages/InventoryDashboard.tsx:72 | clean tags joined by commas parse back to the same tags |
| InventoryDashboard.CleanPieces | pages/InventoryDashboard.tsx:72 | a text whose comma pieces are already clean parses to those pieces |
| InventoryDashboard.NoTags | pages/InventoryDashboard.tsx:72 | an empty tag text gives no tags |
| InventoryDashboard.TrimmedClean | pages/InventoryDashboard.tsx:72 | trimming clean tags changes nothing |
| InventoryDashboard.NewItemFromSpec | pages/InventoryDashboard.tsx:63-79 | the item has the form's name and category, is available, has a description ("Delicious item" when blank), clean tags, and a stock and preparation time of 0 when those fields are blank or missing |
| InventoryDashboard.TypedCountsSent | pages/InventoryDashboard.tsx:74-75 | typed whole numbers for stock and preparation time are sent as those numbers |
| InventoryDashboard.TypedCount | pages/InventoryDashboard.tsx:74-75 | a typed integer reads back as itself |
| InventoryDashboard.DefaultCountsText | pages/InventoryDashboard.tsx:20-75 | the default texts "20" and "15" read as 20 and 15 |
| InventoryDashboard.TwoDigits | pages/InventoryDashboard.tsx:74-75 | a two-digit text reads as its value |
| InventoryDashboard.ResetDropsDefaults | pages/InventoryDashboard.tsx:84 | as written: after the reset, a form whose other fields are left alone sends stock 0, preparation time 0 and no diet, spice or hero ingredient |
| InventoryDashboard.ResetKeepsDefaults | pages/InventoryDashboard.tsx:10-84 | with the reset restoring the initial form, such a form sends stock 20, preparation time 15, veg, medium and the veg hero ingredient |
| InventoryDashboard.Inventory.constructor | pages/InventoryDashboard.tsx:7-22 | no items, loading, not adding, the initial form |
| InventoryDashboard.Inventory.LoadMenu | pages/InventoryDashboard.tsx:25-34 | a fetched menu replaces the items; loading ends either way |
| InventoryDashboard.Inventory.SetAdding | pages/InventoryDashboard.tsx:9 | the add form opens or closes |
| InventoryDashboard.Inventory.Edit | pages/InventoryDashboard.tsx:123-213 | typing in a field sets exactly that field |
| InventoryDashboard.Inventory.Toggle | pages/InventoryDashboard.tsx:41-48 | the server's updated item replaces the one with the id; a failed call alerts and changes nothing |
| InventoryDashboard.Inventory.Delete | pages/InventoryDashboard.tsx:50-58 | nothing is called without confirmation; a confirmed, successful delete drops the item; a failed one alerts |
| InventoryDashboard.Inventory.Submit | pages/InventoryDashboard.tsx:60-133 | a form without name or price is not submitted; otherwise it is sent, and on success the created item is appended, the form closes and gets the as-written six-field reset; a failure alerts and changes nothing |
| InventoryManager.FilteredItemsSpec | components/InventoryManager.tsx:27-31 | exactly the items whose lower-cased name contains the lower-cased query and whose category is the chosen one (any with All); an empty query on All shows everything |
| InventoryManager.LowerOfUpper | components/InventoryManager.tsx:28 | lower-casing an upper-cased text is lower-casing it |
| InventoryManager.SearchIgnoresCase | components/InventoryManager.tsx:28 | the search does not depend on the query's case |
| InventoryManager.ToggleUpdateSpec | components/InventoryManager.tsx:36-49 | the item with the id has its availability flipped and nothing else changed; the result does not depend on the call's outcome; toggling twice restores the list |
| InventoryManager.ToggleInvisibleAsWritten | components/InventoryManager.tsx:38-40 | as written: the flag the list displays never changes on a toggle |
| InventoryManager.ToggleShown | components/InventoryManager.tsx:38-40 | reading the flag the toggle writes, the display changes exactly for the toggled item |
| InventoryManager.DeleteUpdate | components/InventoryManager.tsx:51-56 | a list is handed over exactly when the dialog is confirmed |
| InventoryManager.DeleteUpdateSpec | components/InventoryManager.tsx:53 | the confirmed list holds exactly the items with another id and is no longer |
| InventoryManager.NewIdInjective | components/InventoryManager.tsx:61 | different instants give different ids |
| InventoryManager.AddUpdateSpec | components/InventoryManager.tsx:58-66 | the new item, with an id "new_" and the instant, goes in front of the unchanged list, all its other fields kept |
| AddItemModal.SavedFromSpec | components/AddItemModal.tsx:48-65 | the saved record keeps the form's name, category, description, diet and spice, uses the fallback image when none is given, and adds available, rating 5, tag "new", no allergens, veg hero ingredient, 15 minutes, 300 calories, stock 20 and kind unit |
| AddItemModal.SavedPrice | components/AddItemModal.tsx:50 | a price typed as digits is saved as that number |
| AddItemModal.Modal.constructor | components/AddItemModal.tsx:12-22 | a blank form, not animating |
| AddItemModal.Modal.OpenChanged | components/AddItemModal.tsx:24-40 | opening resets the form to blank; closing keeps it |
| AddItemModal.Modal.Edit | components/AddItemModal.tsx:12-20 | typing in a field sets exactly that field |
| AddItemModal.Modal.Submit | components/AddItemModal.tsx:44-67 | a form without name or price is ignored; otherwise it is saved as it stands and the modal closes |
| AddItemModal.FreshFormRefused | components/AddItemModal.tsx:28-46 | a freshly opened form cannot be submitted, although its empty price would read as 0 |
| ConciergeWizard.FinalPreferencesSpec | components/ConciergeWizard.tsx:222-230 | the assembled preferences carry the chosen diet, allergens, goals and cravings, no dining context, and a fiery spice level exactly when "spicy" is among the cravings, medium otherwise |
| ConciergeWizard.HydratedSpec | components/ConciergeWizard.tsx:103-132 | a returning user's server preferences win, marked remembered; without them and without readable local preferences the wizard starts from non-veg with nothing selected; the selection is remembered exactly when one of the two sources was used |
| ConciergeWizard.Wizard.constructor | components/ConciergeWizard.tsx:72-89 | step 0, nothing skipped, saved or curating, no name, non-veg, nothing selected |
| ConciergeWizard.Wizard.Open | components/ConciergeWizard.tsx:95-145 | opening hydrates the selection and, with a stored name, skips to the preferences step under that name; otherwise it asks for the name |
| ConciergeWizard.Wizard.Hydrate | components/ConciergeWizard.tsx:120-132 | stored preferences fill each list (missing ones empty, a missing diet non-veg) and the remembered flag; without any, the defaults |
| ConciergeWizard.Wizard.AutoSkip | components/ConciergeWizard.tsx:135-143 | a non-empty stored name is taken and the wizard moves to the preferences step as skipped; otherwise back to an empty name at step 0 |
| ConciergeWizard.Wizard.SetName | components/ConciergeWizard.tsx:82 | the typed name is kept as typed |
| ConciergeWizard.Wizard.SubmitIdentity | components/ConciergeWizard.tsx:164-173 | a blank name does nothing; otherwise the trimmed name is stored, the untrimmed one is reported with table 4, and the preferences step opens, not as skipped |
| ConciergeWizard.Wizard.EditIdentity | components/ConciergeWizard.tsx:175-181 | the name is cleared and the wizard returns to step 0 |
| ConciergeWizard.Wizard.ToggleCraving | components/ConciergeWizard.tsx:183-191 | the craving is removed when selected, appended otherwise |
| ConciergeWizard.Wizard.ToggleAllergen | components/ConciergeWizard.tsx:203-207 | the allergen is removed when selected, appended otherwise |
| ConciergeWizard.Wizard.ToggleGoal | components/ConciergeWizard.tsx:193-201 | the goal is toggled, and selecting vegan or jain switches the diet to veg |
| ConciergeWizard.Wizard.SetDietary | components/ConciergeWizard.tsx:86 | the chosen diet is set |
| ConciergeWizard.Wizard.StartCuration | components/ConciergeWizard.tsx:217-251 | curation starts and hands on the assembled preferences and the guest's name |
| ConciergeWizard.StoredNameClean | components/ConciergeWizard.tsx:165-168 | a stored name is already trimmed: no space at either end |
| ConciergeWizard.ChipToggleSpec | components/ConciergeWizard.tsx:183-207 | after a toggle a chip is selected exactly when it was not before (others unchanged); toggling an unselected chip twice restores the list; a list without repeats keeps none |
| SeedEnv.FirstIndex | backend/seed.cjs:12 | the position of the first separator |
| SeedEnv.SplitAtFirst | backend/seed.cjs:12-15 | the first piece is the text before the first separator and the other pieces, joined back, the text after it |
| SeedEnv.ParseLineSpec | backend/seed.cjs:12-15 | a line is used exactly when it holds "=" and, trimmed, does not start with "#"; its key is the trimmed text before the first "=", its value the trimmed text after it, unquoted |
| SeedEnv.StripQuotesSpec | backend/seed.cjs:15 | quotes around a value go, a value without quotes is kept, and a quote on one side only goes on that side |
| SeedEnv.ProcessEnv.constructor | backend/seed.cjs:16 | the loader starts from the process's variables |
| SeedEnv.ProcessEnv.LoadEnv | backend/seed.cjs:6-24 | a missing file changes nothing; otherwise each line is applied in order |
| SeedEnv.LoadedKeeps | backend/seed.cjs:16-18 | a variable that already has a value keeps it |
| SeedEnv.LoadedStep | backend/seed.cjs:11-19 | one more line adds at most its own key |
| SeedEnv.AnyOfStep | backend/seed.cjs:11 | some line qualifies exactly when an earlier one or the last one does |
| SeedEnv.LoadedKeys | backend/seed.cjs:11-19 | after loading, the variables are the earlier ones and the keys of the used lines, and no others |
| SeedEnv.LoadedLineSets | backend/seed.cjs:14-18 | a used line whose variable is unset when it is reached sets it to the line's value |
| SeedEnv.DotEnvWins | backend/seed.cjs:26-27 | a variable .env sets keeps that value whatever .env.local says |
| SeedEnv.MongoUri | backend/seed.cjs:101 | the address is never empty |
| SeedEnv.MongoUriSpec | backend/seed.cjs:101 | MONGO_URI when it is set, MONGO_URL when only that is set, the local default otherwise |
| OrderTimer.ElapsedSpec | components/OrderTimer.tsx:14-18 | the whole minutes since the start, rounded down, negative exactly when the start lies in the future |
| OrderTimer.ElapsedMonotone | components/OrderTimer.tsx:14-18 | a later clock never shows fewer minutes |
| OrderTimer.BandSpec | components/OrderTimer.tsx:35-43 | green under 10 minutes (a future start included), yellow from 10 to 19, red from 20 |
| OrderTimer.Classify | components/OrderTimer.tsx:35-43 | the badge is the band's, drawn with its classes, and critical exactly when red |
| OrderTimer.FutureStartGreen | components/OrderTimer.tsx:14-43 | an order stamped after the clock shows a negative count in green |
| OrderTimer.RedStays | components/OrderTimer.tsx:14-43 | once red, a ticket stays red as the clock moves on |
| OrderTimer.Timer.constructor | components/OrderTimer.tsx:10-21 | mounting computes the minutes once |
| OrderTimer.Timer.Refresh | components/OrderTimer.tsx:24-26 | each tick recomputes the minutes from the same start |

## Left out

- `services/api.ts` is not part of this model: each call it wraps is an
  outcome parameter of the method that makes it. A failed `getSession`
  reads as an inactive session. The URL's `table` parameter and the
  stored guest name are parameters of the start-up method.
- SplashLanding: after the ten-digit check, the login continues with
  `checkUser`, `loginUser` and the mapping of the returned profile. These
  are network calls and are not modelled; the model stops at the number
  that is sent.
- Cancelling an order: the client calls `DELETE /api/orders/{id}`, which
  `backend/main.py` does not define, so on the real server the call is
  always rejected. The model keeps the outcome a parameter of
  `App.CancelOrderCalls` (both the reload and the alert path) and has no
  back-end effect for it.
- Backend.ParseInt: Python's `int()` also accepts underscore digit groups
  (`"1_0"` is 10), non-ASCII decimal digits and non-ASCII white space
  around the number. The model accepts only an optional sign and ASCII
  digits within ASCII white space, and answers 400 for those spellings.
- KitchenDashboard.Board.Analytics: `components/KitchenDashboard.tsx:24`
  imports `MENU_ITEMS` from `./SmartMenu`, which exports no such name
  (`components/data.ts` does), so the menu lookups at lines 218 and 246
  have no menu as written. The model takes the menu as a parameter.
- Common.SortBy: the contract states ascending order and permutation; the
  stability of `Array.prototype.sort` (equal keys keep their order) is
  not stated.
- The database driver and its connection (`backend/database.py`), the
  startup seeding of the back end (`backend/main.py:39-90`),
  `verify_backend.js` and `scripts/seedMenu.js` are I/O. The store is the
  `Backend.Server` class's fields.
- Timing: polling intervals, `setTimeout` delays, the simulated latency of
  `services/db.ts` and the countdowns are explicit tick methods, not clocks.
- Concurrency: overlapping requests and React's effect and render order are
  not modelled. Each handler runs to completion, in the order called.
- Floating point: money is an exact `real` in the back end and a whole
  number of rupees in the cart. IEEE rounding of `Math.round` at exact
  halves is not modelled beyond the integer formulas. `utils/receipt.ts`
  (jsPDF, `toFixed`) is not part of this model beyond the receipt lines.
- Foreign libraries: `Audio` and the chime, the clipboard, framer-motion
  and every animation (loading messages, the timer's pulse, modal fades).
  localStorage is a map or a small datatype of what parsing it yields.
- Pure presentation: `SettingsModal.tsx`, `UpsellModal.tsx`,
  `ServiceRequestModal.tsx`, `SplashScreen.tsx`, `StaffNavbar.tsx` and
  `FloatingStatusPill.tsx`.
- `backend/models.py`, `backend/schemas.py` and `components/data.ts` give
  only record shapes and defaults; their mock data is not modelled.
- JavaScript number text: only decimal notation. Hexadecimal, exponent,
  `Infinity` and `NaN` spellings are not modelled; `None` stands for NaN.
- String trimming treats only the ASCII white space both languages trim
  (space, tab, line feed, vertical tab, form feed, carriage return) as
  space; Python's `strip` also removes `\x1c`-`\x1f`, and both remove
  non-ASCII spaces. There is no Unicode case folding beyond ASCII letters.
- JavaScript object key order is insertion order (the `Tally` association
  list); integer-like keys, which JavaScript orders first, are not special.
- Timestamps are integers; their ISO text is not modelled.
- Preferences stored by the back end are free-form; their values are text.
- The console output of `backend/seed.cjs` is not modelled, and
  `process.env` is a map from name to value.
- ConciergeWizard: the writes of the guest's name to localStorage are not
  modelled. A stored `"null"` reads as no preferences. A stored empty
  dietary type cannot be represented and reads as missing.
- InventoryManager: the search text and category setters are plain state
  writes; only the filter they feed is modelled.
- SmartMenu.QuickEntry: a portion item whose `sizes` list is empty makes
  `item.sizes[item.sizes.length - 1].price` throw in the source, so the
  quick add fails; the model prices that item at `item.price` instead.
- ConciergeWizard.Wizard.StartCuration: the 1.6 s timer that follows it
  (`onComplete`, the 300 ms close animation ending in `onClose`, and
  `setIsCurating(false)`) is not modelled, and neither are `handleSkip`
  and `handleClose`; these are timers and callbacks to the parent.
- SplashLanding.Landing: the `userPrefs` state that `handleSessionReset`
  clears is not a field of the model; only its storage key is.
- AddItemModal.Modal.Submit returns the form handed to `onSave`. The
  partial item built from it is `SavedFrom` of that form, proved
  separately.
- InventoryDashboard.Inventory.Submit returns the form that was sent. The
  request body is `NewItemFrom` of that form, proved separately.
- UserDb.ProfileStore.CreateUser: when the stored text does not parse, the
  source throws and the promise is rejected; the model returns `None` and
  writes nothing.
- UserDb.ProfileStore.SavePreferences: the same rejection is `None`.

## Findings

| source | as written | input that shows it | evidently intended | confidence | as-written member | corrected member |
|---|---|---|---|---|---|---|
| components/FoodDetailModal.tsx:99-108 | the insight tests the match reasons for "protein" and "spicy" case-sensitively, but the menu writes "High Protein" and "Spicy Craving" | a 95% match whose only reason is "High Protein" | the protein insight for that reason, the spice insight for "Spicy Craving" | high, not executed | FoodDetail.InsightMissesMenuReasons | FoodDetail.CaselessInsightFindsMenuReasons |
| components/KitchenDashboard.tsx:155 | the guest's live order is injected with its status cast as is, and "placed" is none of the kitchen's statuses | a guest order with status "placed" | the order shows in the kitchen column as a new ticket | high, not executed | KitchenDashboard.PlacedLiveOrderHidden | KitchenDashboard.PlacedLiveOrderShown |
| pages/InventoryDashboard.tsx:84 | the reset after adding an item sets only six fields, so the stock, preparation time, diet, spice and hero ingredient become undefined | add one item, then add a second filling in only name, price and category | the second item gets stock 20 and preparation time 15, as the initial form gives | high, not executed | InventoryDashboard.ResetDropsDefaults | InventoryDashboard.ResetKeepsDefaults |
| components/InventoryManager.tsx:38-40 | the toggle flips `isAvailable`, but the list reads `available` | toggle any item | the list shows the new availability | medium, not executed | InventoryManager.ToggleInvisibleAsWritten | InventoryManager.ToggleShown |
