/** The guest's onboarding sheet (components/ConciergeWizard.tsx): step 0
    asks for a name, step 1 for dietary type, cravings, allergens and health
    goals; finishing assembles the preferences that are saved. What the
    browser's storage holds when the sheet opens is a parameter, and what
    the handlers write to it is returned. */
module ConciergeWizard {
  import opened Common
  import opened UserDb

  // ---------------------------------------------------------------------
  // Preferences
  // ---------------------------------------------------------------------

  /** `finalPreferences` in `startCuration`: fiery exactly when "spicy" is
      among the cravings, medium otherwise, and no dining context. */
  function FinalPreferences(dietary: Dietary, allergens: seq<string>, goals: seq<string>, cravings: seq<string>): Preferences {
    Preferences(dietary, allergens, if "spicy" in cravings then Fiery else Medium, cravings, goals, [])
  }

  /** The assembled preferences carry the selections unchanged; the spice
      level is never mild, fiery exactly when "spicy" was picked. */
  lemma FinalPreferencesSpec(dietary: Dietary, allergens: seq<string>, goals: seq<string>, cravings: seq<string>)
    ensures var p := FinalPreferences(dietary, allergens, goals, cravings);
      && p.dietary == dietary && p.allergens == allergens && p.healthGoals == goals && p.cravings == cravings
      && (p.spiceLevel == Fiery <==> "spicy" in cravings)
      && p.spiceLevel != Mild && p.diningContext == []
  {
  }

  /** Preferences as read back from storage: any of the four fields the
      sheet uses may be missing. */
  datatype StoredPrefs = StoredPrefs(
    dietary: Option<Dietary>,
    cravings: Option<seq<string>>,
    allergens: Option<seq<string>>,
    healthGoals: Option<seq<string>>)

  /** The `malabar_preferences` entry: absent (or empty), text that does
      not parse, or parsed preferences. */
  datatype LocalPrefs = NoPrefs | BadJson | PrefsJson(prefs: StoredPrefs)

  /** What the sheet shows on opening: the dietary type, the three lists and
      whether they were remembered. */
  datatype Selection = Selection(
    dietary: Dietary,
    cravings: seq<string>,
    allergens: seq<string>,
    healthGoals: seq<string>,
    remembered: bool)

  const DefaultSelection := Selection(NonVeg, [], [], [], false)

  function Full(p: Preferences): StoredPrefs {
    StoredPrefs(Some(p.dietary), Some(p.cravings), Some(p.allergens), Some(p.healthGoals))
  }

  /** Step 2 of the open effect: where the preferences come from. */
  function StoredSource(isReturningUser: bool, initialData: Option<Preferences>, local: LocalPrefs): Option<StoredPrefs> {
    if isReturningUser && initialData.Some? then Some(Full(initialData.value))
    else if local.PrefsJson? then Some(local.prefs)
    else None
  }

  /** Steps 2 and 3 of the open effect: the profile's preferences for a
      returning user who has them, else the stored ones, else defaults;
      each missing field falls back to its default. */
  function Hydrated(isReturningUser: bool, initialData: Option<Preferences>, local: LocalPrefs): (r: Selection) {
    var prefs := StoredSource(isReturningUser, initialData, local);
    if prefs.None? then DefaultSelection
    else
      var p := prefs.value;
      Selection(p.dietary.GetOr(NonVeg), p.cravings.GetOr([]), p.allergens.GetOr([]),
        p.healthGoals.GetOr([]), true)
  }

  /** The profile's preferences win over stored ones for a returning user
      and are shown as they are; without either, or with unreadable stored
      text, the defaults are shown and nothing counts as remembered. */
  lemma HydratedSpec(isReturningUser: bool, initialData: Option<Preferences>, local: LocalPrefs)
    ensures isReturningUser && initialData.Some? ==>
      var p, r := initialData.value, Hydrated(isReturningUser, initialData, local);
      r == Selection(p.dietary, p.cravings, p.allergens, p.healthGoals, true)
    ensures !(isReturningUser && initialData.Some?) && !local.PrefsJson? ==>
      Hydrated(isReturningUser, initialData, local) == DefaultSelection
    ensures Hydrated(isReturningUser, initialData, local).remembered <==>
      (isReturningUser && initialData.Some?) || local.PrefsJson?
  {
  }

  // ---------------------------------------------------------------------
  // The sheet's state
  // ---------------------------------------------------------------------

  class Wizard {
    var step: nat
    var isAutoSkipped: bool
    var hasSavedPrefs: bool
    var isCurating: bool
    var guestName: string
    var dietary: Dietary
    var cravings: seq<string>
    var allergens: seq<string>
    var healthGoals: seq<string>

    predicate Valid()
      reads this
    {
      step <= 1
    }

    constructor ()
      ensures Valid() && step == 0 && !isAutoSkipped && !hasSavedPrefs && !isCurating
      ensures guestName == [] && dietary == NonVeg && cravings == [] && allergens == [] && healthGoals == []
    {
      step, isAutoSkipped, hasSavedPrefs, isCurating := 0, false, false, false;
      guestName, dietary, cravings, allergens, healthGoals := [], NonVeg, [], [], [];
    }

    /** The effect run when the sheet opens, given the stored name (absent
        or empty when `savedName` is `None` or "") and the stored
        preferences. A stored name skips straight to step 1. */
    method Open(savedName: Option<string>, local: LocalPrefs, isReturningUser: bool, initialData: Option<Preferences>)
      modifies this
      ensures Valid() && !isCurating
      ensures var h := Hydrated(isReturningUser, initialData, local);
        dietary == h.dietary && cravings == h.cravings && allergens == h.allergens
        && healthGoals == h.healthGoals && hasSavedPrefs == h.remembered
      ensures if savedName.Some? && savedName.value != []
        then guestName == savedName.value && step == 1 && isAutoSkipped
        else guestName == [] && step == 0 && !isAutoSkipped
    {
      isCurating := false;
      var prefs: Option<StoredPrefs> := None;
      var remembered := false;
      if isReturningUser && initialData.Some? {
        prefs := Some(Full(initialData.value));
        remembered := true;
      } else if local.PrefsJson? {
        prefs := Some(local.prefs);
        remembered := true;
      }
      Hydrate(prefs, remembered);
      AutoSkip(savedName);
    }

    /** Step 3 of the open effect: each field from the preferences found,
        or its default. */
    method Hydrate(prefs: Option<StoredPrefs>, remembered: bool)
      modifies this
      ensures prefs.Some? ==> var p := prefs.value;
        dietary == p.dietary.GetOr(NonVeg) && cravings == p.cravings.GetOr([])
        && allergens == p.allergens.GetOr([]) && healthGoals == p.healthGoals.GetOr([]) && hasSavedPrefs == remembered
      ensures prefs.None? ==>
        dietary == NonVeg && cravings == [] && allergens == [] && healthGoals == [] && !hasSavedPrefs
      ensures step == old(step) && guestName == old(guestName)
      ensures isAutoSkipped == old(isAutoSkipped) && isCurating == old(isCurating)
    {
      if prefs.Some? {
        var p := prefs.value;
        dietary := p.dietary.GetOr(NonVeg);
        cravings := p.cravings.GetOr([]);
        allergens := p.allergens.GetOr([]);
        healthGoals := p.healthGoals.GetOr([]);
        hasSavedPrefs := remembered;
      } else {
        dietary, cravings, allergens, healthGoals := NonVeg, [], [], [];
        hasSavedPrefs := false;
      }
    }

    /** Step 4 of the open effect: a stored name skips the name step. */
    method AutoSkip(savedName: Option<string>)
      modifies this
      ensures if savedName.Some? && savedName.value != []
        then guestName == savedName.value && step == 1 && isAutoSkipped
        else guestName == [] && step == 0 && !isAutoSkipped
      ensures dietary == old(dietary) && cravings == old(cravings) && allergens == old(allergens)
      ensures healthGoals == old(healthGoals) && hasSavedPrefs == old(hasSavedPrefs) && isCurating == old(isCurating)
    {
      if savedName.Some? && savedName.value != [] {
        guestName, step, isAutoSkipped := savedName.value, 1, true;
      } else {
        guestName, step, isAutoSkipped := [], 0, false;
      }
    }

    /** The name input. */
    method SetName(name: string)
      modifies this
      ensures guestName == name
      ensures step == old(step) && isAutoSkipped == old(isAutoSkipped) && hasSavedPrefs == old(hasSavedPrefs)
      ensures isCurating == old(isCurating) && dietary == old(dietary)
      ensures cravings == old(cravings) && allergens == old(allergens) && healthGoals == old(healthGoals)
    {
      guestName := name;
    }

    /** `handleIdentitySubmit`: a blank name is ignored; otherwise the
        trimmed name is stored, the name as typed goes to the session, and
        the sheet moves to step 1. */
    method SubmitIdentity() returns (stored: Option<string>, session: Option<string>)
      requires Valid()
      modifies this
      ensures Valid()
      ensures stored.Some? <==> Trim(old(guestName)) != []
      ensures stored.Some? ==>
        stored.value == Trim(old(guestName)) && session == Some(old(guestName)) && step == 1 && !isAutoSkipped
      ensures stored.None? ==> session.None? && step == old(step) && isAutoSkipped == old(isAutoSkipped)
      ensures guestName == old(guestName) && hasSavedPrefs == old(hasSavedPrefs) && isCurating == old(isCurating)
      ensures dietary == old(dietary) && cravings == old(cravings) && allergens == old(allergens)
      ensures healthGoals == old(healthGoals)
    {
      var trimmed := Trim(guestName);
      if trimmed == [] {
        return None, None;
      }
      stored, session := Some(trimmed), Some(guestName);
      step, isAutoSkipped := 1, false;
    }

    /** `handleEditIdentity`: the stored name is removed (not modelled) and
        the sheet goes back to an empty step 0. */
    method EditIdentity()
      modifies this
      ensures Valid() && guestName == [] && step == 0 && !isAutoSkipped
      ensures hasSavedPrefs == old(hasSavedPrefs) && isCurating == old(isCurating) && dietary == old(dietary)
      ensures cravings == old(cravings) && allergens == old(allergens) && healthGoals == old(healthGoals)
    {
      guestName, step, isAutoSkipped := [], 0, false;
    }

    /** `toggleCraving`. */
    method ToggleCraving(id: string)
      modifies this
      ensures cravings == Toggled(old(cravings), id)
      ensures step == old(step) && guestName == old(guestName) && dietary == old(dietary)
      ensures allergens == old(allergens) && healthGoals == old(healthGoals)
      ensures isAutoSkipped == old(isAutoSkipped) && hasSavedPrefs == old(hasSavedPrefs) && isCurating == old(isCurating)
    {
      cravings := Toggled(cravings, id);
    }

    /** `toggleAllergen`. */
    method ToggleAllergen(id: string)
      modifies this
      ensures allergens == Toggled(old(allergens), id)
      ensures step == old(step) && guestName == old(guestName) && dietary == old(dietary)
      ensures cravings == old(cravings) && healthGoals == old(healthGoals)
      ensures isAutoSkipped == old(isAutoSkipped) && hasSavedPrefs == old(hasSavedPrefs) && isCurating == old(isCurating)
    {
      allergens := Toggled(allergens, id);
    }

    /** `toggleGoal`: selecting (not deselecting) vegan or jain also sets
        the dietary type to veg. */
    method ToggleGoal(id: string)
      modifies this
      ensures healthGoals == Toggled(old(healthGoals), id)
      ensures dietary == if (id == "vegan" || id == "jain") && id !in old(healthGoals) then Veg else old(dietary)
      ensures step == old(step) && guestName == old(guestName)
      ensures cravings == old(cravings) && allergens == old(allergens)
      ensures isAutoSkipped == old(isAutoSkipped) && hasSavedPrefs == old(hasSavedPrefs) && isCurating == old(isCurating)
    {
      var selecting := id !in healthGoals;
      healthGoals := Toggled(healthGoals, id);
      if (id == "vegan" || id == "jain") && selecting {
        dietary := Veg;
      }
    }

    /** The dietary buttons. */
    method SetDietary(d: Dietary)
      modifies this
      ensures dietary == d
      ensures step == old(step) && guestName == old(guestName) && healthGoals == old(healthGoals)
      ensures cravings == old(cravings) && allergens == old(allergens)
      ensures isAutoSkipped == old(isAutoSkipped) && hasSavedPrefs == old(hasSavedPrefs) && isCurating == old(isCurating)
    {
      dietary := d;
    }

    /** `startCuration`: enters the loading state and yields the
        preferences stored locally and sent to the profile store, and the
        name sent to the session. */
    method StartCuration() returns (prefs: Preferences, session: string)
      modifies this
      ensures prefs == FinalPreferences(old(dietary), old(allergens), old(healthGoals), old(cravings))
      ensures session == old(guestName) && isCurating
      ensures step == old(step) && guestName == old(guestName) && dietary == old(dietary)
      ensures cravings == old(cravings) && allergens == old(allergens) && healthGoals == old(healthGoals)
      ensures isAutoSkipped == old(isAutoSkipped) && hasSavedPrefs == old(hasSavedPrefs)
    {
      isCurating := true;
      prefs := FinalPreferences(dietary, allergens, healthGoals, cravings);
      session := guestName;
    }
  }

  // ---------------------------------------------------------------------
  // Properties of the selections
  // ---------------------------------------------------------------------

  /** A stored name is never blank and has no white space at its ends. */
  lemma StoredNameClean(name: string)
    requires Trim(name) != []
    ensures Trim(Trim(name)) == Trim(name)
    ensures !IsSpace(Trim(name)[0]) && !IsSpace(Trim(name)[|Trim(name)| - 1])
  {
    TrimTwice(name);
  }

  /** A chip toggled twice leaves the selection as it was; toggling flips
      that chip only, and a selection without repeats keeps none. */
  lemma ChipToggleSpec(list: seq<string>, id: string, other: string)
    ensures other in Toggled(list, id) <==> if other == id then id !in list else other in list
    ensures id !in list ==> Toggled(Toggled(list, id), id) == list
    ensures (forall i, j :: 0 <= i < j < |list| ==> list[i] != list[j]) ==>
      var r := Toggled(list, id); forall i, j :: 0 <= i < j < |r| ==> r[i] != r[j]
  {
    ToggledMembership(list, id, other);
    if id !in list {
      ToggledTwice(list, id);
    }
    if forall i, j :: 0 <= i < j < |list| ==> list[i] != list[j] {
      ToggledDistinct(list, id);
    }
  }
}
