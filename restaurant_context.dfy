/** The client's shared state (context/RestaurantContext.tsx): the ticket
    cache filled by polling, the offline flag, the new-order chime, the
    guest's login and the views. Network replies are parameters (`None`
    means the request failed); localStorage is a map from key to the value
    stored under it. */
module RestaurantContext {
  import opened Common
  import opened Tickets
  import opened UserDb
  import opened Menu

  /** The user object the backend returns on login. */
  datatype User = User(id: string, name: string, preferences: Option<Preferences>)

  /** A localStorage value, by what it holds. */
  datatype Stored =
    | Text(text: string)
    | SessionRecord(tableId: string, view: string)
    | UserRecord(user: User)
    | Other

  const UserIdKey := "dineai_user_id"
  const SessionKey := "dineai_guest_session"

  datatype GuestSession = GuestSession(name: string, tableId: string, view: string,
                                       preferences: Preferences)

  /** The `guestSession` value the context exposes: present exactly when
      there is a user and a table, with the default preferences when the user
      has none. */
  function DeriveSession(user: Option<User>, tableId: string, view: string): (r: Option<GuestSession>)
    ensures r.Some? <==> user.Some? && tableId != ""
    ensures r.Some? ==>
      r.value.name == user.value.name && r.value.tableId == tableId && r.value.view == view
    ensures r.Some? && user.value.preferences.Some? ==> r.value.preferences == user.value.preferences.value
    ensures r.Some? && user.value.preferences.None? ==> r.value.preferences == DefaultPreferences
  {
    if user.Some? && tableId != "" then
      Some(GuestSession(user.value.name, tableId, view,
                        user.value.preferences.GetOr(DefaultPreferences)))
    else None
  }

  /** The view restored at start-up from the saved session record. */
  function InitialView(storage: map<string, Stored>): (r: string)
    ensures r != ""
    ensures SessionKey !in storage ==> r == "landing"
  {
    if SessionKey in storage && storage[SessionKey].SessionRecord? && storage[SessionKey].view != ""
    then storage[SessionKey].view
    else "landing"
  }

  /** The chime rule: audio on and strictly more tickets than last time. */
  predicate ChimeDue(audioOn: bool, prevCount: int, newCount: int) {
    audioOn && newCount > prevCount
  }

  /** Polling the same number of tickets twice chimes at most once, and the
      first poll (count 0) chimes for any non-empty list when audio is on. */
  lemma ChimeOnlyOnGrowth(audioOn: bool, n: int)
    ensures !ChimeDue(audioOn, n, n)
    ensures ChimeDue(audioOn, 0, n) <==> audioOn && n > 0
  {
  }

  /** The index of the first ticket with the given id (`findIndex`). */
  function FindTicket(ts: seq<Ticket>, id: string): (r: Option<nat>)
    ensures r.Some? ==> r.value < |ts| && ts[r.value].id == id
    ensures r.Some? ==> forall k :: 0 <= k < r.value ==> ts[k].id != id
    ensures r.None? ==> forall k :: 0 <= k < |ts| ==> ts[k].id != id
  {
    if ts == [] then None
    else if ts[0].id == id then Some(0)
    else
      match FindTicket(ts[1..], id)
      case None => None
      case Some(i) => Some(i + 1)
  }

  /** The cache after a successful `placeOrder`: the ticket with the same
      id is replaced in place, otherwise the ticket is appended. */
  function Upsert(ts: seq<Ticket>, t: Ticket): seq<Ticket> {
    match FindTicket(ts, t.id)
    case Some(i) => ts[i := t]
    case None => ts + [t]
  }

  /** The upserted ticket is in the cache, at the old position of its id or
      at the end, and every other position is untouched. */
  lemma UpsertEffect(ts: seq<Ticket>, t: Ticket)
    ensures var r := Upsert(ts, t);
      && t in r
      && (FindTicket(ts, t.id).Some? ==> |r| == |ts| && r[FindTicket(ts, t.id).value] == t)
      && (FindTicket(ts, t.id).None? ==> |r| == |ts| + 1 && r[|ts|] == t)
      && forall k :: 0 <= k < |ts| && (FindTicket(ts, t.id).None? || k != FindTicket(ts, t.id).value)
           ==> r[k] == ts[k]
  {
    var r := Upsert(ts, t);
    match FindTicket(ts, t.id)
    case Some(i) =>
      assert r[i] == t;
    case None =>
      assert r[|ts|] == t;
  }

  /** Upserting the same ticket again changes nothing. */
  lemma {:induction false} UpsertIdempotent(ts: seq<Ticket>, t: Ticket)
    ensures Upsert(Upsert(ts, t), t) == Upsert(ts, t)
  {
    match FindTicket(ts, t.id)
    case Some(i) =>
      FirstIdStable(ts, i, t);
    case None =>
      var r := ts + [t];
      assert FindTicket(r, t.id) == Some(|ts|) by {
        FirstIdAppended(ts, t);
      }
  }

  lemma {:induction false} FirstIdStable(ts: seq<Ticket>, i: nat, t: Ticket)
    requires FindTicket(ts, t.id) == Some(i)
    ensures FindTicket(ts[i := t], t.id) == Some(i)
  {
    if i > 0 {
      assert ts[i := t][1..] == ts[1..][i - 1 := t];
      FirstIdStable(ts[1..], i - 1, t);
    }
  }

  lemma {:induction false} FirstIdAppended(ts: seq<Ticket>, t: Ticket)
    requires FindTicket(ts, t.id).None?
    ensures FindTicket(ts + [t], t.id) == Some(|ts|)
  {
    if ts != [] {
      assert (ts + [t])[1..] == ts[1..] + [t];
      FirstIdAppended(ts[1..], t);
    }
  }

  class Restaurant {
    var tickets: seq<Ticket>
    var menuItems: seq<MenuItem>
    var menuError: Option<string>
    var isOffline: bool
    var isAppLoading: bool
    var isAudioEnabled: bool
    var prevOrderCount: int
    var view: string
    var user: Option<User>
    var customerName: string
    var tableId: string
    var storage: map<string, Stored>

    /** The state on mount, with the view read back from storage. */
    constructor (stored: map<string, Stored>)
      ensures tickets == [] && menuItems == [] && menuError == None
      ensures !isOffline && isAppLoading && !isAudioEnabled && prevOrderCount == 0
      ensures view == InitialView(stored) && user == None && customerName == "" && tableId == ""
      ensures storage == stored
    {
      tickets, menuItems, menuError := [], [], None;
      isOffline, isAppLoading, isAudioEnabled, prevOrderCount := false, true, false, 0;
      view, user, customerName, tableId := InitialView(stored), None, "", "";
      storage := stored;
    }

    /** The persistence effect: while a user and a table are set, the
        session record holds the table and the view (`menu` when empty). */
    method PersistSession()
      modifies this
      ensures user.Some? && tableId != "" ==>
        storage == old(storage)[SessionKey := SessionRecord(tableId, if view == "" then "menu" else view)]
      ensures !(user.Some? && tableId != "") ==> storage == old(storage)
      ensures tickets == old(tickets) && view == old(view) && user == old(user)
      ensures tableId == old(tableId) && customerName == old(customerName)
      ensures prevOrderCount == old(prevOrderCount) && isOffline == old(isOffline)
    {
      if user.Some? && tableId != "" {
        storage := storage[SessionKey := SessionRecord(tableId, if view == "" then "menu" else view)];
      }
    }

    /** `fetchOrders`: a successful poll replaces the cache wholesale; a
        failed one only raises the offline flag. Returns whether the chime
        sounds. */
    method FetchOrders(reply: Option<seq<Ticket>>) returns (chime: bool)
      modifies this
      ensures chime <==> reply.Some? && ChimeDue(old(isAudioEnabled), old(prevOrderCount), |reply.value|)
      ensures reply.Some? ==> tickets == reply.value && prevOrderCount == |reply.value| && !isOffline
      ensures reply.None? ==> tickets == old(tickets) && prevOrderCount == old(prevOrderCount) && isOffline
      ensures isAudioEnabled == old(isAudioEnabled) && view == old(view) && user == old(user)
      ensures tableId == old(tableId) && storage == old(storage)
    {
      chime := false;
      match reply
      case Some(data) =>
        if isAudioEnabled {
          if |data| > prevOrderCount {
            chime := true;
          }
        }
        tickets := data;
        prevOrderCount := |data|;
        isOffline := false;
      case None =>
        isOffline := true;
    }

    /** `loadApp`: the menu first; then the stored user id, if any, is
        resolved (`userReply`), which opens the menu view or forgets the id
        and shows the landing page. A failed menu fetch skips the user step.
        Loading always ends. */
    method LoadApp(menuReply: Option<seq<MenuItem>>, userReply: Option<User>)
      modifies this
      ensures !isAppLoading && tickets == old(tickets) && tableId == old(tableId)
      ensures menuReply.None? ==>
        menuError.Some? && view == old(view) && user == old(user) && storage == old(storage)
        && menuItems == old(menuItems)
      ensures menuReply.Some? ==> menuItems == menuReply.value && menuError == None
      ensures menuReply.Some? && !(UserIdKey in old(storage) && old(storage)[UserIdKey] != Text("")) ==>
        view == "landing" && user == old(user) && storage == old(storage)
      ensures menuReply.Some? && UserIdKey in old(storage) && old(storage)[UserIdKey] != Text("") ==>
        if userReply.Some?
        then user == userReply && customerName == userReply.value.name && view == "menu"
             && storage == old(storage)
        else view == "landing" && user == old(user) && storage == old(storage) - {UserIdKey}
    {
      match menuReply {
      case None =>
        menuError := Some("Failed to load application data.");
      case Some(data) =>
        menuItems := data;
        menuError := None;
        if UserIdKey in storage && storage[UserIdKey] != Text("") {
          match userReply
          case Some(u) =>
            user := Some(u);
            customerName := u.name;
            view := "menu";
          case None =>
            storage := storage - {UserIdKey};
            view := "landing";
        } else {
          view := "landing";
        }
      }
      isAppLoading := false;
    }

    /** `loginGuest`: the table is set and the previous login forgotten
        before the backend answers; on success the user is stored and the
        menu opens, on failure (an alert) the guest stays logged out.
        Returns whether the alert was shown. */
    method LoginGuest(id: string, reply: Option<User>) returns (alerted: bool)
      modifies this
      ensures tableId == id && tickets == old(tickets)
      ensures alerted <==> reply.None?
      ensures reply.Some? ==>
        user == reply && customerName == reply.value.name && view == "menu"
        && storage == (old(storage) - {UserIdKey})[UserIdKey := Text(reply.value.id)]
      ensures reply.None? ==>
        user == None && customerName == old(customerName) && view == old(view)
        && storage == old(storage) - {UserIdKey}
    {
      tableId := id;
      storage := storage - {UserIdKey};
      user := None;
      match reply
      case Some(u) =>
        user := Some(u);
        customerName := u.name;
        storage := storage[UserIdKey := Text(u.id)];
        view := "menu";
        alerted := false;
      case None =>
        alerted := true;
    }

    /** `updateGuestView`: only the view changes; the persistence effect
        writes it out afterwards. */
    method UpdateGuestView(newView: string)
      modifies this
      ensures view == newView && tickets == old(tickets) && user == old(user)
      ensures tableId == old(tableId) && storage == old(storage)
      ensures menuItems == old(menuItems) && menuError == old(menuError) && isOffline == old(isOffline)
      ensures isAppLoading == old(isAppLoading) && isAudioEnabled == old(isAudioEnabled)
      ensures prevOrderCount == old(prevOrderCount) && customerName == old(customerName)
    {
      view := newView;
    }

    /** `logoutGuest` */
    method LogoutGuest()
      modifies this
      ensures storage == old(storage) - {UserIdKey, SessionKey}
      ensures customerName == "" && tableId == "" && user == None && tickets == [] && view == "landing"
      ensures DeriveSession(user, tableId, view) == None
      ensures isAudioEnabled == old(isAudioEnabled) && prevOrderCount == old(prevOrderCount)
      ensures menuItems == old(menuItems) && menuError == old(menuError)
      ensures isOffline == old(isOffline) && isAppLoading == old(isAppLoading)
    {
      storage := storage - {UserIdKey};
      storage := storage - {SessionKey};
      customerName := "";
      tableId := "";
      user := None;
      tickets := [];
      view := "landing";
    }

    /** `resetOrderSession`: a new order round for the same guest. */
    method ResetOrderSession()
      modifies this
      ensures tickets == [] && view == "menu"
      ensures user == old(user) && tableId == old(tableId) && customerName == old(customerName)
      ensures storage == old(storage)
    {
      tickets := [];
      view := "menu";
    }

    /** `updateGuestPreferences`: only with a user; the updated user is also
        written under "user" and "currentUser". */
    method UpdateGuestPreferences(prefs: Preferences)
      modifies this
      ensures old(user).None? ==> user == None && storage == old(storage)
      ensures old(user).Some? ==>
        var u := old(user).value.(preferences := Some(prefs));
        user == Some(u) && storage == old(storage)["user" := UserRecord(u)]["currentUser" := UserRecord(u)]
      ensures tickets == old(tickets) && view == old(view) && tableId == old(tableId)
    {
      if user.Some? {
        var u := user.value.(preferences := Some(prefs));
        storage := storage["user" := UserRecord(u)];
        storage := storage["currentUser" := UserRecord(u)];
        user := Some(u);
      }
    }

    /** `toggleAudio`: turning audio on plays the chime once. */
    method ToggleAudio() returns (chime: bool)
      modifies this
      ensures isAudioEnabled == !old(isAudioEnabled) && chime == isAudioEnabled
      ensures tickets == old(tickets) && prevOrderCount == old(prevOrderCount)
    {
      isAudioEnabled := !isAudioEnabled;
      chime := isAudioEnabled;
    }

    /** `placeOrder`: on success the returned ticket is upserted into the
        cache and handed back; on failure (`None`) the error propagates and
        the cache is untouched. */
    method PlaceOrder(reply: Option<Ticket>) returns (r: Option<Ticket>)
      modifies this
      ensures r == reply
      ensures reply.Some? ==> tickets == Upsert(old(tickets), reply.value)
      ensures reply.None? ==> tickets == old(tickets)
      ensures prevOrderCount == old(prevOrderCount) && view == old(view) && user == old(user)
      ensures storage == old(storage) && isOffline == old(isOffline)
    {
      r := reply;
      if reply.Some? {
        var t := reply.value;
        match FindTicket(tickets, t.id)
        case Some(i) =>
          tickets := tickets[i := t];
        case None =>
          tickets := tickets + [t];
      }
    }
  }
}
