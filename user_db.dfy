/** The browser-side profile store (services/db.ts): a dictionary from phone
    number to profile, kept as JSON under one localStorage key. The stored
    text is modelled by what parsing it yields. */
module UserDb {
  import opened Common

  datatype Dietary = Veg | NonVeg | Egg
  datatype SpiceLevel = Mild | Medium | Fiery

  datatype Preferences = Preferences(
    dietary: Dietary,
    allergens: seq<string>,
    spiceLevel: SpiceLevel,
    cravings: seq<string>,
    healthGoals: seq<string>,
    diningContext: seq<string>)

  /** The fallback used wherever a user has no preferences. */
  const DefaultPreferences := Preferences(NonVeg, [], Medium, [], [], [])

  /** Timestamps are instants; their ISO rendering is not modelled. */
  datatype Profile = Profile(phoneNumber: string, preferences: Option<Preferences>,
                             lastLogin: int, createdAt: int)

  /** What `JSON.parse(localStorage.getItem(DB_KEY))` gives: no entry (an
      empty dictionary), a dictionary, or text that does not parse. */
  datatype Stored = Absent | Users(users: map<string, Profile>) | Unreadable

  /** The dictionary a reader sees; `None` when parsing throws. */
  function Parsed(s: Stored): Option<map<string, Profile>> {
    match s
    case Absent => Some(map[])
    case Users(u) => Some(u)
    case Unreadable => None
  }

  /** `getUser`: the stored profile, or null when absent or unreadable. */
  function Lookup(s: Stored, phone: string): (r: Option<Profile>)
    ensures r.Some? <==> s.Users? && phone in s.users
    ensures r.Some? ==> r.value == s.users[phone]
  {
    if s.Users? && phone in s.users then Some(s.users[phone]) else None
  }

  /** The dictionary after `createUser`: unchanged when the phone is known. */
  function Created(users: map<string, Profile>, phone: string, now: int): map<string, Profile> {
    if phone in users then users else users[phone := Profile(phone, None, now, now)]
  }

  /** The dictionary after `savePreferences`. */
  function Saved(users: map<string, Profile>, phone: string, prefs: Preferences, now: int)
    : map<string, Profile>
  {
    var base := if phone in users then users[phone] else Profile(phone, None, now, now);
    users[phone := base.(preferences := Some(prefs), lastLogin := now)]
  }

  /** Creating a profile twice is the same as creating it once, and the
      profile created is the one found afterwards. */
  lemma CreateIdempotent(users: map<string, Profile>, phone: string, t1: int, t2: int)
    ensures Created(Created(users, phone, t1), phone, t2) == Created(users, phone, t1)
    ensures phone in Created(users, phone, t1)
    ensures phone in users ==> Created(users, phone, t1) == users
    ensures phone !in users ==> Created(users, phone, t1)[phone] == Profile(phone, None, t1, t1)
  {
  }

  /** After saving, the profile holds the new preferences and login time,
      keeps its creation time (or is created now), and every other profile is
      as before. */
  lemma SaveEffect(users: map<string, Profile>, phone: string, prefs: Preferences, now: int)
    ensures var u := Saved(users, phone, prefs, now);
      && phone in u && u[phone].preferences == Some(prefs) && u[phone].lastLogin == now
      && u[phone].phoneNumber == (if phone in users then users[phone].phoneNumber else phone)
      && u[phone].createdAt == (if phone in users then users[phone].createdAt else now)
      && u.Keys == users.Keys + {phone}
      && forall p :: p in users && p != phone ==> u[p] == users[p]
  {
  }

  /** A profile read back after saving carries the saved preferences. */
  lemma SaveThenLookup(users: map<string, Profile>, phone: string, prefs: Preferences, now: int)
    ensures Lookup(Users(Saved(users, phone, prefs, now)), phone).Some?
    ensures Lookup(Users(Saved(users, phone, prefs, now)), phone).value.preferences == Some(prefs)
  {
  }

  /** The localStorage entry behind the store. */
  class ProfileStore {
    var stored: Stored

    constructor (initial: Stored)
      ensures stored == initial
    {
      stored := initial;
    }

    method GetUser(phone: string) returns (r: Option<Profile>)
      ensures r == Lookup(stored, phone)
    {
      if stored.Users? && phone in stored.users {
        r := Some(stored.users[phone]);
      } else {
        r := None;
      }
    }

    /** `createUser`: `None` when the stored text does not parse (the
        promise rejects; nothing is written). */
    method CreateUser(phone: string, now: int) returns (r: Option<Profile>)
      modifies this
      ensures Parsed(old(stored)).None? ==> r.None? && stored == old(stored)
      ensures Parsed(old(stored)).Some? && phone in Parsed(old(stored)).value ==>
        r == Some(Parsed(old(stored)).value[phone]) && stored == old(stored)
      ensures Parsed(old(stored)).Some? && phone !in Parsed(old(stored)).value ==>
        r == Some(Profile(phone, None, now, now))
        && stored == Users(Created(Parsed(old(stored)).value, phone, now))
    {
      var users := Parsed(stored);
      if users.None? {
        return None;
      }
      if phone in users.value {
        return Some(users.value[phone]);
      }
      var created := Profile(phone, None, now, now);
      stored := Users(users.value[phone := created]);
      r := Some(created);
    }

    /** `savePreferences` */
    method SavePreferences(phone: string, prefs: Preferences, now: int) returns (r: Option<Profile>)
      modifies this
      ensures Parsed(old(stored)).None? ==> r.None? && stored == old(stored)
      ensures Parsed(old(stored)).Some? ==>
        stored == Users(Saved(Parsed(old(stored)).value, phone, prefs, now))
        && r == Some(stored.users[phone])
    {
      var users := Parsed(stored);
      if users.None? {
        return None;
      }
      var u := users.value;
      if phone !in u {
        u := u[phone := Profile(phone, None, now, now)];
      }
      u := u[phone := u[phone].(preferences := Some(prefs), lastLogin := now)];
      stored := Users(u);
      r := Some(u[phone]);
    }
  }
}
