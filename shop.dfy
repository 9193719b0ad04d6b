/** The shop screen: the cart kept in screen state, its total, and the
    checkout that records the sale in the device store before emptying the
    cart. */
module Shop {
  import opened Wrappers
  import opened Models
  import opened Prices
  import opened CartLines
  import opened Storage

  /** The stored sales list once `sale` is recorded: a missing list starts
      out empty and a list that does not parse is left as it is (the parse
      error is caught and logged). Otherwise the sale goes at the end and the
      earlier sales stay as they were. */
  function RecordSale(sales: Slot<seq<Sale>>, sale: Sale): (r: Slot<seq<Sale>>)
    ensures sales.Corrupt? ==> r == sales
    ensures !sales.Corrupt? ==> r.Present? && |r.value| >= 1 && r.value[|r.value| - 1] == sale
    ensures sales.Absent? ==> |r.value| == 1
    ensures sales.Present? ==> r.value[..|r.value| - 1] == sales.value
  {
    match sales
    case Absent => Present([sale])
    case Corrupt => Corrupt
    case Present(s) => Present(s + [sale])
  }

  class ShopScreen {
    /** `cartItems` */
    var cartItems: seq<CartLine>

    constructor ()
      ensures cartItems == []
    {
      cartItems := [];
    }

    /** The effect run when the route brings a selected item: its line gets
        one more unit, or a line with one unit is appended. */
    method AddSelectedItem(selected: Option<Item>)
      modifies this
      ensures selected.None? ==> cartItems == old(cartItems)
      ensures selected.Some? ==> cartItems == AddItem(old(cartItems), selected.value)
      ensures ValidCart(old(cartItems)) ==> ValidCart(cartItems)
    {
      if selected.Some? {
        var newItem := NewLine(selected.value);
        var updatedItems := cartItems;
        var existingItemIndex := FindIndex(updatedItems, newItem.item.id);
        if existingItemIndex >= 0 {
          var l := updatedItems[existingItemIndex];
          updatedItems := updatedItems[existingItemIndex := l.(quantity := l.quantity + 1)];
        } else {
          updatedItems := updatedItems + [newItem];
        }
        cartItems := updatedItems;
        if ValidCart(old(cartItems)) {
          AddItemKeepsValid(old(cartItems), selected.value);
        }
      }
    }

    /** `increaseQuantity` */
    method IncreaseQuantity(itemId: string)
      modifies this
      ensures cartItems == Increase(old(cartItems), itemId)
      ensures ValidCart(old(cartItems)) ==> ValidCart(cartItems)
    {
      var updatedItems := cartItems;
      var itemIndex := FindIndex(updatedItems, itemId);
      if itemIndex >= 0 {
        var l := updatedItems[itemIndex];
        updatedItems := updatedItems[itemIndex := l.(quantity := l.quantity + 1)];
      }
      cartItems := updatedItems;
    }

    /** `decreaseQuantity`: a line above one unit loses one, a line at one
        unit is spliced out. */
    method DecreaseQuantity(itemId: string)
      modifies this
      ensures cartItems == Decrease(old(cartItems), itemId)
      ensures ValidCart(old(cartItems)) ==> ValidCart(cartItems)
    {
      var updatedItems := cartItems;
      var itemIndex := FindIndex(updatedItems, itemId);
      if itemIndex >= 0 {
        var l := updatedItems[itemIndex];
        if l.quantity > 1 {
          updatedItems := updatedItems[itemIndex := l.(quantity := l.quantity - 1)];
        } else {
          updatedItems := updatedItems[..itemIndex] + updatedItems[itemIndex + 1..];
        }
      }
      cartItems := updatedItems;
      if ValidCart(old(cartItems)) {
        DecreaseKeepsValid(old(cartItems), itemId);
      }
    }

    /** `calculateTotal`: the cart's lines summed with prices read by
        `parsePriceToNumber`. */
    method CalculateTotal() returns (total: real)
      ensures total == CartTotal(cartItems)
      ensures cartItems == [] ==> total == 0.0
    {
      total := SumLines(cartItems, ParsePriceToNumber);
    }

    /** `saveSale`: a sale holding the current lines and their total, stamped
        with the id and the time the caller supplies, is added to the stored
        sales list. */
    method SaveSale(store: KeyValueStore, id: string, now: int)
      modifies store`sales
      ensures store.sales == RecordSale(old(store.sales), Sale(id, cartItems, CartTotal(cartItems), now))
    {
      var total := CalculateTotal();
      var sale := Sale(id, cartItems, total, now);
      match store.sales {
        case Absent =>
          store.sales := Present([sale]);
        case Corrupt =>
          // JSON.parse throws; the error is caught and nothing is written
        case Present(existingSales) =>
          store.sales := Present(existingSales + [sale]);
      }
    }

    /** `handleCheckout`: an empty cart is refused with nothing saved; a
        cancelled confirmation changes nothing; a confirmed one records the
        sale and then empties the cart. */
    method HandleCheckout(store: KeyValueStore, confirmed: bool, id: string, now: int)
      modifies this, store`sales
      ensures old(cartItems) == [] || !confirmed ==>
        cartItems == old(cartItems) && store.sales == old(store.sales)
      ensures old(cartItems) != [] && confirmed ==>
        && cartItems == []
        && store.sales == RecordSale(old(store.sales), Sale(id, old(cartItems), CartTotal(old(cartItems)), now))
    {
      if |cartItems| == 0 {
        return;
      }
      if confirmed {
        SaveSale(store, id, now);
        cartItems := [];
      }
    }
  }
}
