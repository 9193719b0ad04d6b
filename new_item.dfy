/** The form that creates a product or edits one passed in by the route:
    how its fields are filled, when saving is refused, and what a save
    hands on or stores. */
module NewItem {
  import opened Wrappers
  import opened JsText
  import opened Models
  import opened Prices
  import opened Storage
  import HomeUtils

  /** `categories`; the first is the default. */
  const Categories: seq<string> := ["Kits", "Caixões", "Coroa de Flores"]

  /** `route.params`: the product to edit and its id, each possibly
      undefined. */
  datatype RouteParams = RouteParams(itemToEdit: Option<Item>, id: Option<string>)

  /** `isEditing = !!itemToEdit && id !== undefined` */
  predicate IsEditing(params: RouteParams) {
    params.itemToEdit.Some? && params.id.Some?
  }

  /** `s || fallback` on strings. */
  function OrText(s: string, fallback: string): (r: string)
    ensures s != [] ==> r == s
    ensures s == [] ==> r == fallback
  {
    if s != [] then s else fallback
  }

  /** The first value of `priceValue`: `parseFloat` of the edited price
      with its first "R$ ", '.' and ',' handled, or null when there is no
      price to edit. NaN is kept as it is. */
  function InitialPrice(itemToEdit: Option<Item>): Option<JsNumber> {
    if itemToEdit.Some? && itemToEdit.value.price != [] then Some(ParseFloat(StripFirstMarks(itemToEdit.value.price)))
    else None
  }

  /** `parseFloat(rawPrice) || null` in the edit-load effect: the first
      value with 0 and NaN made null (an empty price reads as NaN, so it is
      null either way). */
  function LoadedPrice(item: Item): Option<JsNumber> {
    OrNull(InitialPrice(Some(item)))
  }

  /** `n || null` */
  function OrNull(n: Option<JsNumber>): Option<JsNumber> {
    if n.Some? && Truthy(n.value) then n else None
  }

  /** The effect reads the price as the cart does (`parsePriceToNumber`),
      except that 0 and NaN become null instead of 0. */
  lemma LoadedPriceReadsAsCart(item: Item)
    ensures LoadedPrice(item).None? <==> ParsePriceToNumber(item.price) == 0.0
    ensures LoadedPrice(item).Some? ==> LoadedPrice(item) == Some(Num(ParsePriceToNumber(item.price)))
  {
  }

  /** The two fillings of `priceValue` disagree on a price that reads as 0:
      the first keeps 0 (a value that saving accepts), the effect makes it
      null (which saving refuses). A price that reads as NaN is likewise
      kept first and made null by the effect. */
  lemma ZeroPriceDroppedOnLoad(item: Item)
    requires item.price != []
    requires ParseFloat(StripFirstMarks(item.price)) == Num(0.0) || ParseFloat(StripFirstMarks(item.price)) == NaN
    ensures InitialPrice(Some(item)) == Some(ParseFloat(StripFirstMarks(item.price)))
    ensures LoadedPrice(item) == None
  {
  }

  /** The check at the top of `handleSaveItem`: name, category and
      description are not blank, a price is set (any number, 0 and NaN
      included) and there is at least one image. */
  predicate CanSave(name: string, price: Option<JsNumber>, category: string, description: string, images: seq<string>) {
    !IsBlank(name) && price.Some? && !IsBlank(category) && !IsBlank(description) && |images| > 0
  }

  /** The check as the screen writes it, with `trim()`: a field is refused
      exactly when trimming leaves nothing. */
  lemma CanSaveTrims(name: string, price: Option<JsNumber>, category: string, description: string, images: seq<string>)
    ensures CanSave(name, price, category, description, images) <==>
      !(Trim(name) == [] || price == None || Trim(category) == [] || Trim(description) == [] || |images| == 0)
  {
  }

  /** A price of 0 passes, and so does one that is not a number: only the
      null price is refused. */
  lemma ZeroPricePasses(name: string, category: string, description: string, images: seq<string>)
    requires !IsBlank(name) && !IsBlank(category) && !IsBlank(description) && images != []
    ensures CanSave(name, Some(Num(0.0)), category, description, images)
    ensures CanSave(name, Some(NaN), category, description, images)
    ensures !CanSave(name, None, category, description, images)
  {
  }

  /** The product a save builds: fields not in the form stay undefined. */
  function SavedItem(id: string, name: string, price: string, category: string, description: string, images: seq<string>): Item {
    Item(id, name, price, category, description, images, [], None, None)
  }

  /** Saving an edited product: with a stored list, the product with its id
      is replaced and the new list handed on; with nothing stored nothing
      happens. Text that does not parse makes `JSON.parse` throw out of the
      handler, uncaught: nothing is saved and the screen stays as well. */
  function SaveEdited(stored: Slot<seq<Item>>, item: Item): (r: SaveOutcome)
    ensures r.HomeWithProducts? <==> stored.Present?
    ensures r.HomeWithProducts? ==>
      |r.products| == |stored.value| &&
      (forall i :: 0 <= i < |r.products| ==> r.products[i] == (if stored.value[i].id == item.id then item else stored.value[i]))
    ensures !r.HomeWithProducts? ==> r == Stayed
  {
    if stored.Present? then HomeWithProducts(HomeUtils.UpdatedProducts(stored.value, item.id, item)) else Stayed
  }

  /** `updateProduct` writes the list it hands on. */
  function StoredAfterEdit(stored: Slot<seq<Item>>, outcome: SaveOutcome): Slot<seq<Item>> {
    if outcome.HomeWithProducts? then Present(outcome.products) else stored
  }

  /** What a save leads to: the alert, navigation home with the updated
      product list or with the new product, or nothing (editing with no
      stored products). */
  datatype SaveOutcome = Alerted | HomeWithProducts(products: seq<Item>) | HomeWithItem(item: Item) | Stayed

  class NewItemScreen {
    const params: RouteParams
    /** `itemName` */
    var itemName: string
    /** `priceValue`; None is `null` */
    var priceValue: Option<JsNumber>
    /** `itemCategory` */
    var itemCategory: string
    /** `itemDescription` */
    var itemDescription: string
    /** `images` */
    var images: seq<string>

    /** The form as the `useState` initialisers fill it. */
    constructor (params: RouteParams)
      ensures this.params == params
      ensures params.itemToEdit.None? ==>
        itemName == [] && priceValue == None && itemCategory == Categories[0] &&
        itemDescription == [] && images == []
      ensures params.itemToEdit.Some? ==>
        var item := params.itemToEdit.value;
        itemName == item.name && priceValue == InitialPrice(params.itemToEdit) &&
        itemCategory == OrText(item.category, Categories[0]) &&
        itemDescription == item.description && images == item.images
    {
      this.params := params;
      var item := params.itemToEdit;
      itemName := if item.Some? then item.value.name else [];
      priceValue := InitialPrice(item);
      itemCategory := if item.Some? then OrText(item.value.category, Categories[0]) else Categories[0];
      itemDescription := if item.Some? then item.value.description else [];
      images := if item.Some? then item.value.images else [];
    }

    /** The edit-load effect: with a product to edit the form is filled
        from it again, the price through `|| null`; without one nothing
        changes. */
    method LoadItemToEdit()
      modifies this
      ensures params.itemToEdit.Some? ==>
        var item := params.itemToEdit.value;
        itemName == item.name && priceValue == LoadedPrice(item) &&
        itemCategory == OrText(item.category, Categories[0]) &&
        itemDescription == item.description && images == item.images
      ensures params.itemToEdit.None? ==> unchanged(this)
    {
      if params.itemToEdit.Some? {
        var item := params.itemToEdit.value;
        itemName := item.name;
        priceValue := LoadedPrice(item);
        itemCategory := OrText(item.category, Categories[0]);
        itemDescription := item.description;
        images := item.images;
      }
    }

    predicate FormIs(name: string, price: Option<JsNumber>, category: string, description: string, pictures: seq<string>)
      reads this
    {
      itemName == name && priceValue == price && itemCategory == category &&
      itemDescription == description && images == pictures
    }

    /** Whether the form as it stands may be saved. */
    predicate Complete()
      reads this
    {
      CanSave(itemName, priceValue, itemCategory, itemDescription, images)
    }

    /** The product a save of the complete form builds. */
    function ItemToSave(newId: string, toCurrency: JsNumber -> string): Item
      reads this
      requires Complete()
    {
      SavedItem(if IsEditing(params) then params.id.value else newId,
        itemName, toCurrency(priceValue.value), itemCategory, itemDescription, images)
    }

    /** `handleSaveItem`. An incomplete form is refused with an alert and
        nothing changes. Otherwise the product is built with the price as
        `toCurrency` formats it and the route's id when editing, else
        `newId` (the clock's `Date.now()`). Editing stores and hands on the
        product list with that id's product replaced, and keeps the form.
        Adding goes home with the new product and resets the form, the
        category back to "Kits". */
    method HandleSaveItem(store: KeyValueStore, newId: string, toCurrency: JsNumber -> string) returns (outcome: SaveOutcome)
      modifies this, store`products
      ensures outcome == Alerted <==> !old(Complete())
      ensures outcome == Alerted ==> unchanged(this) && store.products == old(store.products)
      ensures outcome != Alerted && IsEditing(params) ==>
        outcome == SaveEdited(old(store.products), old(ItemToSave(newId, toCurrency))) &&
        store.products == StoredAfterEdit(old(store.products), outcome) &&
        unchanged(this)
      ensures outcome != Alerted && !IsEditing(params) ==>
        outcome == HomeWithItem(old(ItemToSave(newId, toCurrency))) &&
        store.products == old(store.products) &&
        FormIs([], None, Categories[0], [], [])
    {
      if !Complete() {
        return Alerted;
      }
      var updatedItem := ItemToSave(newId, toCurrency);
      if IsEditing(params) {
        outcome := SaveEdited(store.products, updatedItem);
        store.products := StoredAfterEdit(store.products, outcome);
      } else {
        outcome := HomeWithItem(updatedItem);
        itemName := [];
        priceValue := None;
        itemCategory := Categories[0];
        itemDescription := [];
        images := [];
      }
    }
  }
}
