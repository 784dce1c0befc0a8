/** The staff inventory page (pages/InventoryDashboard.tsx): the menu list
    with its availability toggle and delete button, and the inline add-item
    form whose text fields are turned into the item sent to the API. Each
    API call is an oracle parameter: its result, or `None` / `false` when
    it throws; the confirm dialog's answer is a parameter too. */
module InventoryDashboard {
  import opened Common
  import opened Menu
  import opened JsNumber

  // ---------------------------------------------------------------------
  // The form
  // ---------------------------------------------------------------------

  /** The form's state: every field is the text of its input. The last five
      can be missing altogether (`undefined`), which happens after the reset
      that follows a save. */
  datatype Form = Form(
    name: string,
    price: string,
    category: string,
    description: string,
    image: string,
    tags: string,
    dietaryType: Option<string>,
    spiceLevel: Option<string>,
    heroIngredient: Option<string>,
    stock: Option<string>,
    prepTime: Option<string>)

  /** The form as the page first shows it. */
  const InitialForm := Form("", "", "Mains", "", "", "", Some("veg"), Some("medium"), Some("veg"), Some("20"), Some("15"))

  /** The inputs, each bound to one field. */
  datatype Field = NameField | PriceField | CategoryField | DescriptionField | ImageField | TagsField
    | DietaryField | SpiceField | HeroField | StockField | PrepTimeField

  /** `setFormData({ ...formData, <field>: value })`. */
  function Edited(f: Form, field: Field, value: string): Form {
    match field
    case NameField => f.(name := value)
    case PriceField => f.(price := value)
    case CategoryField => f.(category := value)
    case DescriptionField => f.(description := value)
    case ImageField => f.(image := value)
    case TagsField => f.(tags := value)
    case DietaryField => f.(dietaryType := Some(value))
    case SpiceField => f.(spiceLevel := Some(value))
    case HeroField => f.(heroIngredient := Some(value))
    case StockField => f.(stock := Some(value))
    case PrepTimeField => f.(prepTime := Some(value))
  }

  /** The item the form sends: `parseFloat` of the price (`None` is NaN), a
      stock description when none is given, the comma-separated tags, and
      `parseInt` of stock and preparation time, a missing or empty one
      read as "0". */
  datatype NewItem = NewItem(
    name: string,
    price: Option<Decimal>,
    category: string,
    description: string,
    image: string,
    isAvailable: bool,
    dietaryType: Option<string>,
    spiceLevel: Option<string>,
    tags: seq<string>,
    heroIngredient: Option<string>,
    stock: Option<int>,
    prepTime: Option<int>,
    allergens: seq<string>,
    rating: real,
    calories: int)

  /** `value || '0'`. */
  function OrZero(value: Option<string>): string {
    if value.None? || value.value == "" then "0" else value.value
  }

  function TrimmedAll(parts: seq<string>): (r: seq<string>)
    ensures |r| == |parts| && forall k :: 0 <= k < |parts| ==> r[k] == Trim(parts[k])
  {
    seq(|parts|, k requires 0 <= k < |parts| => Trim(parts[k]))
  }

  predicate NonEmpty(t: string) { t != "" }

  /** `tags.split(',').map(t => t.trim()).filter(Boolean)`. */
  function ParsedTags(text: string): seq<string> {
    Filter(TrimmedAll(Split(text, ',')), NonEmpty)
  }

  /** `handleSubmit`'s `newItem`. */
  function NewItemFrom(f: Form): NewItem {
    NewItem(
      f.name,
      ParseFloatPrefix(f.price),
      f.category,
      if f.description == "" then "Delicious item" else f.description,
      f.image,
      true,
      f.dietaryType,
      f.spiceLevel,
      ParsedTags(f.tags),
      f.heroIngredient,
      ParseIntPrefix(OrZero(f.stock)),
      ParseIntPrefix(OrZero(f.prepTime)),
      [],
      4.5,
      0)
  }

  // ---------------------------------------------------------------------
  // Tags
  // ---------------------------------------------------------------------

  /** A tag clean enough to survive the form unchanged. */
  predicate CleanTag(t: string) {
    t != "" && Trim(t) == t && ',' !in t
  }

  /** Every character of a trimmed text comes from the text. */
  lemma TrimWithin(s: string)
    ensures forall c :: c in Trim(s) ==> c in s
  {
    var t := TrimStart(s);
    var r := TrimEnd(t);
    forall c | c in r
      ensures c in s
    {
      var k :| 0 <= k < |r| && r[k] == c;
      assert r[k] == t[k];
      assert t[k] == s[|s| - |t| + k];
    }
  }

  /** The parsed tags are non-empty, trimmed and free of commas. */
  lemma ParsedTagsClean(text: string)
    ensures forall k :: 0 <= k < |ParsedTags(text)| ==> CleanTag(ParsedTags(text)[k])
  {
    var parts := Split(text, ',');
    var trimmed := TrimmedAll(parts);
    forall k | 0 <= k < |trimmed|
      ensures Trim(trimmed[k]) == trimmed[k] && ',' !in trimmed[k]
    {
      TrimTwice(parts[k]);
      TrimWithin(parts[k]);
    }
    var r := ParsedTags(text);
    forall k | 0 <= k < |r|
      ensures CleanTag(r[k])
    {
      assert r[k] in multiset(trimmed);
    }
  }

  /** Splitting a comma-free piece followed by a comma and more text. */
  lemma {:induction false} SplitAfterPiece(a: string, sep: char, rest: string)
    requires sep !in a
    ensures Split(a + [sep] + rest, sep) == [a] + Split(rest, sep)
  {
    if a == [] {
      assert a + [sep] + rest == [sep] + rest;
      assert ([sep] + rest)[1..] == rest;
    } else {
      assert (a + [sep] + rest)[1..] == a[1..] + [sep] + rest;
      SplitAfterPiece(a[1..], sep, rest);
      assert [a[0]] + a[1..] == a;
    }
  }

  /** A piece without the separator splits to itself. */
  lemma {:induction false} SplitPiece(a: string, sep: char)
    requires sep !in a
    ensures Split(a, sep) == [a]
  {
    if a != [] {
      SplitPiece(a[1..], sep);
      assert [a[0]] + a[1..] == a;
    }
  }

  /** Splitting undoes joining, for pieces without the separator. */
  lemma {:induction false} SplitJoin(parts: seq<string>, sep: char)
    requires parts != [] && forall k :: 0 <= k < |parts| ==> sep !in parts[k]
    ensures Split(Join(parts, [sep]), sep) == parts
  {
    if |parts| == 1 {
      SplitPiece(parts[0], sep);
    } else {
      SplitJoin(parts[1..], sep);
      SplitAfterPiece(parts[0], sep, Join(parts[1..], [sep]));
      assert [parts[0]] + parts[1..] == parts;
    }
  }

  /** Clean tags typed as a comma-separated list come back as they were;
      an empty field gives no tags. */
  lemma ParsedTagsOfJoin(tags: seq<string>)
    requires forall k :: 0 <= k < |tags| ==> CleanTag(tags[k])
    ensures ParsedTags(Join(tags, ",")) == tags
  {
    if tags == [] {
      NoTags();
    } else {
      SplitJoin(tags, ',');
      CleanPieces(Join(tags, ","), tags);
    }
  }

  /** Text whose pieces are clean tags parses to those pieces. */
  lemma CleanPieces(text: string, tags: seq<string>)
    requires Split(text, ',') == tags
    requires forall k :: 0 <= k < |tags| ==> CleanTag(tags[k])
    ensures ParsedTags(text) == tags
  {
    TrimmedClean(tags);
    FilterAll(tags, NonEmpty);
  }

  lemma NoTags()
    ensures ParsedTags([]) == []
  {
    var parts := Split([], ',');
    assert parts == [[]];
    assert TrimmedAll(parts) == [[]];
  }

  lemma TrimmedClean(tags: seq<string>)
    requires forall k :: 0 <= k < |tags| ==> CleanTag(tags[k])
    ensures TrimmedAll(tags) == tags
  {
  }

  // ---------------------------------------------------------------------
  // The item sent
  // ---------------------------------------------------------------------

  /** What the form sends: its name and category as typed, a description
      that is never empty (the typed one when there is one), clean tags,
      and a stock and preparation time of 0 when their field is missing or
      empty. */
  lemma NewItemFromSpec(f: Form)
    ensures var item := NewItemFrom(f);
      && item.name == f.name && item.category == f.category && item.isAvailable
      && item.description != []
      && (f.description != [] ==> item.description == f.description)
      && (forall k :: 0 <= k < |item.tags| ==> CleanTag(item.tags[k]))
      && (f.stock.None? || f.stock == Some([]) ==> item.stock == Some(0))
      && (f.prepTime.None? || f.prepTime == Some([]) ==> item.prepTime == Some(0))
  {
    ParsedTagsClean(f.tags);
    ZeroText();
  }

  /** A number typed into the stock or preparation time field is sent as
      that number. */
  lemma TypedCountsSent(f: Form, stock: int, prepTime: int)
    requires f.stock == Some(IntText(stock)) && f.prepTime == Some(IntText(prepTime))
    ensures NewItemFrom(f).stock == Some(stock) && NewItemFrom(f).prepTime == Some(prepTime)
  {
    TypedCount(IntText(stock), stock);
    TypedCount(IntText(prepTime), prepTime);
  }

  lemma TypedCount(t: string, n: int)
    requires t == IntText(n)
    ensures ParseIntPrefix(OrZero(Some(t))) == Some(n)
  {
    ParseIntPrefixOfText(n, []);
    assert t + [] == t;
  }

  lemma ZeroText()
    ensures ParseIntPrefix("0") == Some(0)
  {
    ParseIntPrefixOfText(0, []);
    assert IntText(0) + [] == "0";
  }

  lemma DefaultCountsText()
    ensures ParseIntPrefix("20") == Some(20) && ParseIntPrefix("15") == Some(15)
  {
    TwoDigits("20", 20);
    TwoDigits("15", 15);
  }

  /** A two-digit numeral is read as its value. */
  lemma TwoDigits(t: string, n: int)
    requires |t| == 2 && IsDigit(t[0]) && IsDigit(t[1])
    requires n == 10 * (t[0] as int - '0' as int) + (t[1] as int - '0' as int)
    ensures ParseIntPrefix(t) == Some(n)
  {
    var first := t[..1];
    assert first[..0] == [] && first[0] == t[0];
    assert DecimalValue(first) == t[0] as int - '0' as int;
    assert t[..|t| - 1] == first;
    assert DecimalValue(t) == n;
    ParseIntPrefixOfDigits(t, []);
    assert t + [] == t;
  }

  /** The reset written in `handleSubmit` lists only the first six fields,
      so the other five are missing afterwards. */
  const ResetAsWritten := Form("", "", "Mains", "", "", "", None, None, None, None, None)

  /** The reset the page evidently intends: back to the initial form. The
      page itself uses `ResetAsWritten`. */
  const ResetForm := InitialForm

  /** A form whose last five fields were left as `reset` made them,
      whatever was typed into the others. */
  predicate DefaultsUntouched(f: Form, reset: Form) {
    && f.dietaryType == reset.dietaryType && f.spiceLevel == reset.spiceLevel
    && f.heroIngredient == reset.heroIngredient && f.stock == reset.stock && f.prepTime == reset.prepTime
  }

  /** After the as-written reset, an item saved without touching the last
      five fields goes out with stock 0 and preparation time 0 rather than
      the 20 and 15 the form showed at first, and without dietary type,
      spice level or hero ingredient. */
  lemma ResetDropsDefaults(f: Form)
    requires DefaultsUntouched(f, ResetAsWritten)
    ensures var item := NewItemFrom(f);
      && item.stock == Some(0) && item.prepTime == Some(0)
      && item.dietaryType.None? && item.spiceLevel.None? && item.heroIngredient.None?
  {
    ZeroText();
  }

  /** After the corrected reset, the next item gets the defaults the form
      started with: stock 20, preparation time 15, vegetarian, medium
      spice, vegetable hero ingredient. */
  lemma ResetKeepsDefaults(f: Form)
    requires DefaultsUntouched(f, ResetForm)
    ensures var item := NewItemFrom(f);
      && item.stock == Some(20) && item.prepTime == Some(15)
      && item.dietaryType == Some("veg") && item.spiceLevel == Some("medium")
      && item.heroIngredient == Some("veg")
  {
    DefaultCountsText();
  }

  // ---------------------------------------------------------------------
  // The page's state
  // ---------------------------------------------------------------------

  class Inventory {
    var items: seq<MenuItem>
    var loading: bool
    var isAdding: bool
    var form: Form

    constructor ()
      ensures items == [] && loading && !isAdding && form == InitialForm
    {
      items, loading, isAdding, form := [], true, false, InitialForm;
    }

    /** `loadMenu`: the fetched menu replaces the list; a failed fetch
        keeps it. Either way loading is over. */
    method LoadMenu(fetched: Option<seq<MenuItem>>)
      modifies this
      ensures items == if fetched.Some? then fetched.value else old(items)
      ensures !loading && isAdding == old(isAdding) && form == old(form)
    {
      if fetched.Some? {
        items := fetched.value;
      }
      loading := false;
    }

    /** The "Add Item" button and the form's close and cancel buttons. */
    method SetAdding(open: bool)
      modifies this
      ensures isAdding == open
      ensures items == old(items) && loading == old(loading) && form == old(form)
    {
      isAdding := open;
    }

    /** An input's `onChange`. */
    method Edit(field: Field, value: string)
      modifies this
      ensures form == Edited(old(form), field, value)
      ensures items == old(items) && loading == old(loading) && isAdding == old(isAdding)
    {
      form := Edited(form, field, value);
    }

    /** `handleToggle`: the item the server returns replaces every item
        with that id; a failed call alerts and changes nothing. */
    method Toggle(id: string, updated: Option<MenuItem>) returns (alerted: bool)
      modifies this
      ensures alerted == updated.None?
      ensures items == if updated.Some? then ReplacedWhere(old(items), id, updated.value) else old(items)
      ensures loading == old(loading) && isAdding == old(isAdding) && form == old(form)
    {
      alerted := false;
      if updated.Some? {
        items := ReplacedWhere(items, id, updated.value);
      } else {
        alerted := true;
      }
    }

    /** `handleDelete`: nothing unless confirmed (and then no call is made);
        after a successful call the items with that id are gone. */
    method Delete(id: string, confirmed: bool, succeeded: bool) returns (called: bool, alerted: bool)
      modifies this
      ensures called == confirmed
      ensures alerted == (confirmed && !succeeded)
      ensures items == if confirmed && succeeded then WithoutId(old(items), id) else old(items)
      ensures loading == old(loading) && isAdding == old(isAdding) && form == old(form)
    {
      called, alerted := false, false;
      if !confirmed {
        return;
      }
      called := true;
      if succeeded {
        items := WithoutId(items, id);
      } else {
        alerted := true;
      }
    }

    /** `handleSubmit`. The name and price inputs are `required`, so the
        browser does not submit while either is empty. Otherwise the form
        is submitted (`sent`; the API receives `NewItemFrom` of it); the
        created item (the call's result) is
        appended, the form closed and reset as written, to six fields with
        the other five missing. A failed call alerts and keeps everything. */
    method Submit(created: Option<MenuItem>) returns (sent: Option<Form>, alerted: bool)
      modifies this
      ensures sent.Some? <==> old(form).name != [] && old(form).price != []
      ensures sent.Some? ==> sent.value == old(form)
      ensures alerted <==> sent.Some? && created.None?
      ensures if sent.Some? && created.Some?
        then items == old(items) + [created.value] && !isAdding && form == ResetAsWritten
        else items == old(items) && isAdding == old(isAdding) && form == old(form)
      ensures loading == old(loading)
    {
      sent, alerted := None, false;
      var typed := form;
      if typed.name == [] || typed.price == [] {
        return;
      }
      sent := Some(typed);
      if created.None? {
        alerted := true;
        return;
      }
      items := items + [created.value];
      isAdding := false;
      form := ResetAsWritten;
    }
  }
}
