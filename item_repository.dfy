/** The products table of the on-device SQLite database and the repository
    functions over it. The table is a map from `id_product` to its row, with
    the AUTOINCREMENT counter beside it; JSON columns hold their values
    directly (serialising is the identity here). */
module ItemRepository {
  import opened Wrappers
  import opened Models
  import opened JsText

  /** A product as the repository receives it. Strings that are empty stand
      for absent ones (every test on them is a truthiness test); `images` may
      be missing altogether. */
  datatype ProductInput = ProductInput(
    name: string,
    quantity: Option<int>,
    price: string,
    description: string,
    images: Option<seq<string>>,
    targetScreen: string,
    planPrices: Option<map<string, string>>,
    category: string)

  /** A row of `products`. `price` and `planPrices` are the nullable
      columns; `image` holds the serialised image list. */
  datatype ProductRow = ProductRow(
    idProduct: nat,
    name: string,
    quantity: int,
    price: Option<string>,
    description: string,
    image: seq<string>,
    targetScreen: string,
    planPrices: Option<map<string, string>>,
    category: string)

  /** How a repository call fails: the explicit check of `insertProduct`, a
      NOT NULL column given null, or any other error of the database engine.
      Each is logged and thrown again to the caller. */
  datatype DbError = MissingFields | NotNullViolation | EngineFailure

  /** The result of a query: its value, or the error thrown. */
  datatype Outcome<T> = Ok(value: T) | Thrown(error: DbError)

  // ---------------------------------------------------------------------
  // ids as text
  // ---------------------------------------------------------------------

  function DigitChar(d: nat): (c: char)
    requires d < 10
    ensures IsDigit(c) && DigitValue(c) == d
  {
    ('0' as int + d) as char
  }

  /** `n.toString()` for a whole number: its decimal digits. */
  function DecimalText(n: nat): (s: string)
    ensures s != [] && AllDigits(s)
  {
    if n < 10 then [DigitChar(n)] else DecimalText(n / 10) + [DigitChar(n % 10)]
  }

  /** Reading the decimal text back gives the number. */
  lemma {:induction false} DecimalTextValue(n: nat)
    ensures DigitsValue(DecimalText(n)) == n
  {
    var s := DecimalText(n);
    if n >= 10 {
      DecimalTextValue(n / 10);
      assert s[..|s| - 1] == DecimalText(n / 10);
    }
  }

  /** The value an id argument takes when SQLite compares it with the
      INTEGER column `id_product`: text made only of digits becomes that
      number; any other text equals no id. */
  function IdValue(id: string): Option<nat> {
    if id != [] && AllDigits(id) then Some(DigitsValue(id)) else None
  }

  /** An item's id, as `toItem` writes it, selects its own row again. */
  lemma IdRoundTrip(n: nat)
    ensures IdValue(DecimalText(n)) == Some(n)
  {
    DecimalTextValue(n);
  }

  // ---------------------------------------------------------------------
  // rows and items
  // ---------------------------------------------------------------------

  /** `toItem`: the id as decimal text, a null price or null plan table read
      as absent, the image list parsed back. */
  function ToItem(row: ProductRow): (item: Item)
    ensures IdValue(item.id) == Some(row.idProduct)
    ensures item.images == row.image
    ensures row.price.None? ==> item.price == []
    ensures item.planPrices == row.planPrices
  {
    IdRoundTrip(row.idProduct);
    Item(
      DecimalText(row.idProduct),
      row.name,
      row.price.GetOr([]),
      row.category,
      row.description,
      row.image,
      row.targetScreen,
      row.planPrices,
      Some(row.quantity))
  }

  /** A column the schema declares NOT NULL would receive null, or the
      explicit check of `insertProduct` fails: name, description, images,
      targetScreen or category is falsy. An empty image list is present, so
      it passes. */
  predicate MissingRequired(p: ProductInput) {
    p.name == [] || p.description == [] || p.images.None? || p.targetScreen == [] || p.category == []
  }

  /** The row written for a product, by INSERT with a fresh id and by UPDATE
      over an existing one alike: quantity 0 when falsy, price null when
      falsy, plan table null when absent, every other column as given. */
  function RowOf(id: nat, p: ProductInput): (row: ProductRow)
    requires !MissingRequired(p)
    ensures row.idProduct == id
    ensures row.quantity == (if p.quantity.Some? then p.quantity.value else 0)
    ensures row.price.None? <==> p.price == []
    ensures row.image == p.images.value
  {
    ProductRow(
      id, p.name, p.quantity.GetOr(0),
      if p.price != [] then Some(p.price) else None,
      p.description, p.images.value, p.targetScreen, p.planPrices, p.category)
  }

  /** A product written and read back keeps its name, description, images,
      target screen, category, plan table and (empty or not) price; its
      quantity is the one written, 0 for a falsy one. */
  lemma ReadBackWritten(id: nat, p: ProductInput)
    requires !MissingRequired(p)
    ensures var item := ToItem(RowOf(id, p));
      && item.name == p.name && item.description == p.description
      && item.images == p.images.value && item.targetScreen == p.targetScreen
      && item.category == p.category && item.planPrices == p.planPrices
      && item.price == p.price && item.quantity == Some(p.quantity.GetOr(0))
      && IdValue(item.id) == Some(id)
  {
  }

  // ---------------------------------------------------------------------
  // queries by target screen, as a scan in id order
  // ---------------------------------------------------------------------

  /** The items of the rows with ids below `n` whose target screen is
      `targetScreen`, in id order. */
  function ItemsFor(rows: map<nat, ProductRow>, targetScreen: string, n: nat): seq<Item> {
    if n == 0 then []
    else
      ItemsFor(rows, targetScreen, n - 1)
      + (if n - 1 in rows && rows[n - 1].targetScreen == targetScreen then [ToItem(rows[n - 1])] else [])
  }

  /** Row `k` is on the target screen and `x` is its item. */
  predicate SelectedAt(rows: map<nat, ProductRow>, targetScreen: string, k: nat, x: Item) {
    k in rows && rows[k].targetScreen == targetScreen && x == ToItem(rows[k])
  }

  /** An item is selected exactly when it is the item of a row, below `n`,
      on that target screen. */
  lemma {:induction false} ItemsForMembership(rows: map<nat, ProductRow>, targetScreen: string, n: nat, x: Item)
    ensures x in ItemsFor(rows, targetScreen, n) <==> exists k: nat :: k < n && SelectedAt(rows, targetScreen, k, x)
  {
    if n > 0 {
      var k := n - 1;
      ItemsForMembership(rows, targetScreen, k, x);
      var prev := ItemsFor(rows, targetScreen, k);
      var here := if k in rows && rows[k].targetScreen == targetScreen then [ToItem(rows[k])] else [];
      assert ItemsFor(rows, targetScreen, n) == prev + here;
      if x in here {
        assert SelectedAt(rows, targetScreen, k, x);
      }
      if exists j: nat :: j < n && SelectedAt(rows, targetScreen, j, x) {
        var j: nat :| j < n && SelectedAt(rows, targetScreen, j, x);
        if j == k {
          assert x in here;
        }
      }
    }
  }

  /** Every item selected for a screen belongs to that screen, and an
      inserted product is selected for its own screen once its id is
      below `n`. */
  lemma ItemsForScreen(rows: map<nat, ProductRow>, targetScreen: string, n: nat, x: Item)
    ensures x in ItemsFor(rows, targetScreen, n) ==> x.targetScreen == targetScreen
    ensures forall k: nat :: k < n && k in rows && rows[k].targetScreen == targetScreen ==>
      ToItem(rows[k]) in ItemsFor(rows, targetScreen, n)
  {
    ItemsForMembership(rows, targetScreen, n, x);
    forall k: nat | k < n && k in rows && rows[k].targetScreen == targetScreen
      ensures ToItem(rows[k]) in ItemsFor(rows, targetScreen, n)
    {
      ItemsForMembership(rows, targetScreen, n, ToItem(rows[k]));
      assert SelectedAt(rows, targetScreen, k, ToItem(rows[k]));
    }
  }

  class ProductTable {
    /** The rows, by `id_product`. */
    var rows: map<nat, ProductRow>
    /** The AUTOINCREMENT counter: the next id to hand out. */
    var nextId: nat

    /** Each row sits under its own id, below the counter. */
    predicate Valid()
      reads this
    {
      forall k :: k in rows ==> k < nextId && rows[k].idProduct == k
    }

    constructor ()
      ensures rows == map[] && nextId == 1 && Valid()
    {
      rows := map[];
      nextId := 1;
    }

    /** `insertProduct`. A missing required field throws before anything is
        written; an engine error (`engineFails`) is thrown again; otherwise
        exactly one row is added, under a fresh id. */
    method InsertProduct(product: ProductInput, engineFails: bool) returns (error: Option<DbError>)
      requires Valid()
      modifies this
      ensures Valid()
      ensures MissingRequired(product) ==> error == Some(MissingFields) && rows == old(rows) && nextId == old(nextId)
      ensures !MissingRequired(product) && engineFails ==>
        error == Some(EngineFailure) && rows == old(rows) && nextId == old(nextId)
      ensures !MissingRequired(product) && !engineFails ==>
        && error.None?
        && old(nextId) !in old(rows)
        && rows == old(rows)[old(nextId) := RowOf(old(nextId), product)]
        && nextId == old(nextId) + 1
    {
      if MissingRequired(product) {
        return Some(MissingFields);
      }
      if engineFails {
        return Some(EngineFailure);
      }
      var id := nextId;
      rows := rows[id := RowOf(id, product)];
      nextId := nextId + 1;
      error := None;
    }

    /** `getProductsByTargetScreen`: the items of exactly the rows whose
        target screen is the argument, in id order. */
    method GetProductsByTargetScreen(targetScreen: string, engineFails: bool) returns (result: Outcome<seq<Item>>)
      requires Valid()
      ensures engineFails ==> result == Thrown(EngineFailure)
      ensures !engineFails ==> result == Ok(ItemsFor(rows, targetScreen, nextId))
    {
      if engineFails {
        return Thrown(EngineFailure);
      }
      var products: seq<Item> := [];
      for k := 0 to nextId
        invariant products == ItemsFor(rows, targetScreen, k)
      {
        if k in rows && rows[k].targetScreen == targetScreen {
          products := products + [ToItem(rows[k])];
        }
      }
      result := Ok(products);
    }

    /** `updateProduct`. Every column of the row with that id is overwritten
        from the product; when a NOT NULL column would get null the
        statement fails and nothing changes; an id that selects no row
        changes nothing. */
    method UpdateProduct(id: string, product: ProductInput, engineFails: bool) returns (error: Option<DbError>)
      requires Valid()
      modifies this`rows
      ensures Valid()
      ensures engineFails ==> error == Some(EngineFailure) && rows == old(rows)
      ensures !engineFails && (IdValue(id).None? || IdValue(id).value !in old(rows)) ==>
        error.None? && rows == old(rows)
      ensures !engineFails && IdValue(id).Some? && IdValue(id).value in old(rows) ==>
        if MissingRequired(product) then error == Some(NotNullViolation) && rows == old(rows)
        else error.None? && rows == old(rows)[IdValue(id).value := RowOf(IdValue(id).value, product)]
    {
      if engineFails {
        return Some(EngineFailure);
      }
      var key := IdValue(id);
      if key.None? || key.value !in rows {
        return None;
      }
      if MissingRequired(product) {
        return Some(NotNullViolation);
      }
      rows := rows[key.value := RowOf(key.value, product)];
      error := None;
    }

    /** `deleteProduct`: only the row with that id goes. */
    method DeleteProduct(id: string, engineFails: bool) returns (error: Option<DbError>)
      requires Valid()
      modifies this`rows
      ensures Valid()
      ensures engineFails ==> error == Some(EngineFailure) && rows == old(rows)
      ensures !engineFails ==> error.None?
      ensures !engineFails && IdValue(id).None? ==> rows == old(rows)
      ensures !engineFails && IdValue(id).Some? ==> rows == old(rows) - {IdValue(id).value}
    {
      if engineFails {
        return Some(EngineFailure);
      }
      var key := IdValue(id);
      if key.Some? {
        rows := rows - {key.value};
      }
      error := None;
    }

    /** `getProductById`: null when no row has that id, otherwise the row's
        item. */
    method GetProductById(id: string, engineFails: bool) returns (result: Outcome<Option<Item>>)
      ensures engineFails ==> result == Thrown(EngineFailure)
      ensures !engineFails && (IdValue(id).None? || IdValue(id).value !in rows) ==> result == Ok(None)
      ensures !engineFails && IdValue(id).Some? && IdValue(id).value in rows ==>
        result == Ok(Some(ToItem(rows[IdValue(id).value])))
    {
      if engineFails {
        return Thrown(EngineFailure);
      }
      var key := IdValue(id);
      if key.None? || key.value !in rows {
        return Ok(None);
      }
      result := Ok(Some(ToItem(rows[key.value])));
    }
  }
}
