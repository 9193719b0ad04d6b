/** The product-list helpers the catalog screens share: each builds a new
    list, hands it to the screen's setter and stores the same list under
    "products". */
module HomeUtils {
  import opened Models
  import opened Seqs
  import opened Storage

  const NoCategory: string := "Sem Categoria"

  /** A product as loaded: a falsy category becomes "Sem Categoria". */
  function WithCategory(item: Item): (r: Item)
    ensures r.category != []
    ensures r.(category := item.category) == item
    ensures item.category != [] ==> r == item
  {
    if item.category != [] then item else item.(category := NoCategory)
  }

  /** The list `loadProducts` hands to the setter. */
  function LoadedProducts(stored: seq<Item>): (r: seq<Item>)
    ensures |r| == |stored|
    ensures forall i :: 0 <= i < |r| ==> r[i] == WithCategory(stored[i])
  {
    seq(|stored|, i requires 0 <= i < |stored| => WithCategory(stored[i]))
  }

  /** `updateProduct`'s list: every product with that id replaced. */
  function UpdatedProducts(products: seq<Item>, id: string, updatedItem: Item): (r: seq<Item>)
    ensures |r| == |products|
    ensures forall i :: 0 <= i < |r| && products[i].id == id ==> r[i] == updatedItem
    ensures forall i :: 0 <= i < |r| && products[i].id != id ==> r[i] == products[i]
  {
    seq(|products|, i requires 0 <= i < |products| => if products[i].id == id then updatedItem else products[i])
  }

  function HasOtherId(id: string): Item -> bool {
    (item: Item) => item.id != id
  }

  /** `removeProduct`'s list: the products whose id differs, in order. */
  function RemovedProducts(products: seq<Item>, id: string): seq<Item> {
    Filter(products, HasOtherId(id))
  }

  /** Loading changes nothing but falsy categories. */
  lemma LoadedProductsOnlyCategory(stored: seq<Item>)
    ensures forall i :: 0 <= i < |stored| ==>
      LoadedProducts(stored)[i].(category := stored[i].category) == stored[i]
    ensures forall i :: 0 <= i < |stored| ==> LoadedProducts(stored)[i].category != []
  {
  }

  /** Updating an id no product has leaves the list as it was. */
  lemma UpdateAbsentId(products: seq<Item>, id: string, updatedItem: Item)
    requires forall i :: 0 <= i < |products| ==> products[i].id != id
    ensures UpdatedProducts(products, id, updatedItem) == products
  {
  }

  /** Removing keeps, in their order, exactly the products with another id:
      the result is a subsequence of the list, and no product with that id
      is left. */
  lemma RemovedProductsSpec(products: seq<Item>, id: string, x: Item)
    ensures x in RemovedProducts(products, id) <==> x in products && x.id != id
    ensures IsSubsequence(RemovedProducts(products, id), products)
    ensures forall y :: y in RemovedProducts(products, id) ==> y.id != id
  {
    FilterMembership(products, HasOtherId(id), x);
    FilterIsSubsequence(products, HasOtherId(id));
    forall y | y in RemovedProducts(products, id) ensures y.id != id {
      FilterMembership(products, HasOtherId(id), y);
    }
  }

  /** Removing an id no product has leaves the list as it was. */
  lemma RemoveAbsentId(products: seq<Item>, id: string)
    requires forall i :: 0 <= i < |products| ==> products[i].id != id
    ensures RemovedProducts(products, id) == products
  {
    FilterAll(products, HasOtherId(id));
  }

  /** Removing the id of a product just added, when no earlier product had
      it, gives back the list from before the addition. */
  lemma RemoveUndoesAdd(products: seq<Item>, newItem: Item)
    requires forall i :: 0 <= i < |products| ==> products[i].id != newItem.id
    ensures RemovedProducts(products + [newItem], newItem.id) == products
  {
    FilterAppend(products, [newItem], HasOtherId(newItem.id));
    FilterAll(products, HasOtherId(newItem.id));
    assert [newItem][1..] == [];
  }

  /** The screen state the helpers' setter writes. */
  class ProductsState {
    var products: seq<Item>

    constructor (products: seq<Item>)
      ensures this.products == products
    {
      this.products := products;
    }
  }

  /** `loadProducts`: with a stored list, the loaded list goes to the setter;
      with nothing stored, or text that does not parse (caught and logged),
      the screen's products stay as they were. */
  method LoadProducts(state: ProductsState, store: KeyValueStore)
    modifies state
    ensures store.products.Present? ==> state.products == LoadedProducts(store.products.value)
    ensures !store.products.Present? ==> state.products == old(state.products)
  {
    if store.products.Present? {
      var parsedProducts := LoadedProducts(store.products.value);
      state.products := parsedProducts;
    }
  }

  /** `addNewProduct`: the list with the new product at the end, both set
      and stored. */
  method AddNewProduct(products: seq<Item>, newItem: Item, state: ProductsState, store: KeyValueStore)
    modifies state, store`products
    ensures state.products == products + [newItem]
    ensures store.products == Present(state.products)
  {
    var updatedProducts := products + [newItem];
    state.products := updatedProducts;
    store.products := Present(updatedProducts);
  }

  /** `updateProduct`: the updated list, both set and stored. */
  method UpdateProduct(products: seq<Item>, id: string, updatedItem: Item, state: ProductsState, store: KeyValueStore)
    modifies state, store`products
    ensures state.products == UpdatedProducts(products, id, updatedItem)
    ensures store.products == Present(state.products)
  {
    var updatedProducts := UpdatedProducts(products, id, updatedItem);
    state.products := updatedProducts;
    store.products := Present(updatedProducts);
  }

  /** `removeProduct`: the filtered list, both set and stored. */
  method RemoveProduct(products: seq<Item>, id: string, state: ProductsState, store: KeyValueStore)
    modifies state, store`products
    ensures state.products == RemovedProducts(products, id)
    ensures store.products == Present(state.products)
  {
    var updatedProducts := RemovedProducts(products, id);
    state.products := updatedProducts;
    store.products := Present(updatedProducts);
  }
}
