/** The add-item dialog of the inventory screen (components/AddItemModal.tsx):
    a form that is reset every time the dialog opens, and a submit that
    hands a partial menu item to `onSave` and then closes. */
module AddItemModal {
  import opened Common
  import opened JsNumber

  /** The form's fields, as typed. */
  datatype ModalForm = ModalForm(
    name: string,
    price: string,
    category: string,
    description: string,
    dietaryType: string,
    image: string,
    spiceLevel: string)

  /** The form after every opening. */
  const BlankForm := ModalForm("", "", "Starters", "", "veg", "", "medium")

  /** The picture used when no image address is typed. */
  const FallbackImage := "https://images.unsplash.com/photo-1546069901-ba9599a7e63c?auto=format&fit=crop&w=500&q=80"

  /** The partial item handed to `onSave`; `price` is `Number` of the typed
      text (`None` is NaN) and `kind` is the item's `type`. */
  datatype Saved = Saved(
    name: string,
    price: Option<Decimal>,
    category: string,
    description: string,
    dietaryType: string,
    image: string,
    spiceLevel: string,
    available: bool,
    rating: real,
    allergens: seq<string>,
    tags: seq<string>,
    heroIngredient: string,
    prepTime: int,
    calories: int,
    stock: int,
    kind: string)

  /** The item `handleSubmit` builds from the form. */
  function SavedFrom(f: ModalForm): Saved {
    Saved(f.name, NumberOf(f.price), f.category, f.description, f.dietaryType,
      if f.image == [] then FallbackImage else f.image,
      f.spiceLevel, true, 5.0, [], ["new"], "veg", 15, 300, 20, "unit")
  }

  /** The saved item keeps what was typed, has a picture whatever was
      typed, and gets the fixed defaults: available, five stars, tagged
      "new", sold by the unit, 20 in stock. */
  lemma SavedFromSpec(f: ModalForm)
    ensures var s := SavedFrom(f);
      && s.name == f.name && s.category == f.category && s.description == f.description
      && s.dietaryType == f.dietaryType && s.spiceLevel == f.spiceLevel
      && s.image != [] && (f.image != [] ==> s.image == f.image)
      && s.available && s.rating == 5.0 && s.tags == ["new"] && s.kind == "unit" && s.stock == 20
      && s.allergens == [] && s.prepTime == 15 && s.calories == 300
  {
  }

  /** A price typed as digits is saved as that whole number. */
  lemma SavedPrice(f: ModalForm)
    requires AllDigits(f.price) && f.price != []
    ensures SavedFrom(f).price == Some(Decimal(false, DecimalValue(f.price), []))
  {
    DigitsRead(f.price);
  }

  /** The inputs, each bound to one field. */
  datatype Field = NameField | PriceField | CategoryField | DescriptionField | DietaryField | ImageField | SpiceField

  /** `setFormData({...formData, <field>: value})`. */
  function Edited(f: ModalForm, field: Field, value: string): ModalForm {
    match field
    case NameField => f.(name := value)
    case PriceField => f.(price := value)
    case CategoryField => f.(category := value)
    case DescriptionField => f.(description := value)
    case DietaryField => f.(dietaryType := value)
    case ImageField => f.(image := value)
    case SpiceField => f.(spiceLevel := value)
  }

  /** The dialog's state. `animating` keeps it drawn while it fades out. */
  class Modal {
    var form: ModalForm
    var animating: bool

    constructor ()
      ensures form == BlankForm && !animating
    {
      form, animating := BlankForm, false;
    }

    /** The effect on `isOpen`: opening starts the animation and resets
        the form; closing ends the animation (after the fade, which is not
        modelled) and keeps the form. */
    method OpenChanged(isOpen: bool)
      modifies this
      ensures animating == isOpen
      ensures form == if isOpen then BlankForm else old(form)
    {
      if isOpen {
        animating := true;
        form := BlankForm;
      } else {
        animating := false;
      }
    }

    /** An input's `onChange`. */
    method Edit(field: Field, value: string)
      modifies this
      ensures form == Edited(old(form), field, value) && animating == old(animating)
    {
      form := Edited(form, field, value);
    }

    /** `handleSubmit`: nothing without a name and a price; otherwise the
        form is handed to `onSave` (as `SavedFrom` of it) and then `onClose`
        is called. The form itself is left as it is. */
    method Submit() returns (saved: Option<ModalForm>, closed: bool)
      ensures saved.Some? <==> form.name != [] && form.price != []
      ensures saved.Some? ==> saved.value == form
      ensures closed == saved.Some?
    {
      if form.name == [] || form.price == [] {
        return None, false;
      }
      saved, closed := Some(form), true;
    }
  }

  /** A form submitted right after the dialog opens is refused: the reset
      clears the name and the price, and `Number` would otherwise read the
      empty price as 0. */
  lemma FreshFormRefused()
    ensures BlankForm.name == [] && BlankForm.price == []
    ensures NumberOf(BlankForm.price) == Some(Decimal(false, 0, []))
  {
    BlankText();
  }
}
