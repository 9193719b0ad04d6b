/** The product card: which product its modal shows, the price it shows for
    it, and the "add to cart" action that writes the stored cart itself. */
module ProductCard {
  import opened Wrappers
  import opened Models
  import opened Prices
  import opened CartLines
  import opened Storage

  /** `currentModalItem`: with a non-empty product list, the product at the
      modal's index (nothing at all, `undefined`, when the index is outside
      the list); with no list or an empty one, the card's own product. */
  function CurrentModalItem(items: seq<Item>, currentModalIndex: int, initialItem: Item): (r: Option<Item>)
    ensures items == [] ==> r == Some(initialItem)
    ensures items != [] && 0 <= currentModalIndex < |items| ==> r == Some(items[currentModalIndex])
    ensures items != [] && r.Some? ==> r.value in items
    ensures r.None? <==> items != [] && !(0 <= currentModalIndex < |items|)
  {
    if items == [] then Some(initialItem)
    else if 0 <= currentModalIndex < |items| then Some(items[currentModalIndex])
    else None
  }

  /** The card shows a plan's price only for a "Parque" product that has a
      plan table, when a plan is selected. */
  predicate ShowsPlanPrice(item: Item, selectedPlan: string) {
    item.targetScreen == "Parque" && item.planPrices.Some? && selectedPlan != ""
  }

  /** `priceDisplay`: in the plan case the plan's entry, with no fallback, so
      a plan missing from the table shows nothing (`undefined`); otherwise
      the product's price, or "Preço indisponível" when it has none. */
  function PriceDisplay(item: Item, selectedPlan: string): (r: Option<string>)
    ensures r.None? <==> ShowsPlanPrice(item, selectedPlan) && selectedPlan !in item.planPrices.value
    ensures ShowsPlanPrice(item, selectedPlan) && r.Some? ==> r.value == item.planPrices.value[selectedPlan]
    ensures !ShowsPlanPrice(item, selectedPlan) ==> r.Some? && r.value != []
    ensures !ShowsPlanPrice(item, selectedPlan) && item.price != [] ==> r == Some(item.price)
  {
    if ShowsPlanPrice(item, selectedPlan) then
      var plans := item.planPrices.value;
      if selectedPlan in plans then Some(plans[selectedPlan]) else None
    else if item.price != [] then Some(item.price)
    else Some(Unavailable)
  }

  /** The cart `addToCart` starts from: the stored list, or an empty one when
      nothing is stored. */
  function StoredCart(cart: Slot<seq<CartLine>>): seq<CartLine>
    requires !cart.Corrupt?
  {
    if cart.Present? then cart.value else []
  }

  /** `addToCart` for the product the modal shows. The stored cart is read
      (nothing stored counts as an empty cart), the product's line gets one
      more unit or a line with one unit is appended, and the list is written
      back. Only once it is written is `onAddToCart` called, if the card has
      one; a stored cart that does not parse, or a write that fails, is
      caught and logged, and then nothing is written and nothing is called.
      `writeSucceeds` is the outcome of `AsyncStorage.setItem`. */
  method AddToCart(store: KeyValueStore, currentModalItem: Item, hasOnAddToCart: bool, writeSucceeds: bool)
    returns (calledOnAddToCart: bool)
    modifies store`cart
    ensures old(store.cart).Corrupt? || !writeSucceeds ==> store.cart == old(store.cart) && !calledOnAddToCart
    ensures !old(store.cart).Corrupt? && writeSucceeds ==>
      && store.cart == Present(AddItem(StoredCart(old(store.cart)), currentModalItem))
      && calledOnAddToCart == hasOnAddToCart
    ensures calledOnAddToCart ==> store.cart.Present?
  {
    calledOnAddToCart := false;
    if store.cart.Corrupt? {
      return;
    }
    var cartItems := if store.cart.Present? then store.cart.value else [];
    var newItem := NewLine(currentModalItem);
    var existingItemIndex := FindIndex(cartItems, newItem.item.id);
    if existingItemIndex >= 0 {
      var l := cartItems[existingItemIndex];
      cartItems := cartItems[existingItemIndex := l.(quantity := l.quantity + 1)];
    } else {
      cartItems := cartItems + [newItem];
    }
    if !writeSucceeds {
      return;
    }
    store.cart := Present(cartItems);
    if hasOnAddToCart {
      calledOnAddToCart := true;
    }
  }
}
