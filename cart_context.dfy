/** The cart context shared by the screens: the cart held in memory, loaded
    from and cleared in the device store. */
module CartContext {
  import opened Wrappers
  import opened Models
  import opened Storage

  /** The message `useCart` throws outside a provider. */
  const OutsideProvider: string := "useCart deve ser usado dentro de um CartProvider"

  class CartProvider {
    /** `cartItems` */
    var cartItems: seq<CartLine>

    constructor ()
      ensures cartItems == []
    {
      cartItems := [];
    }

    /** `loadCartItems`: the stored list when there is one, an empty cart
        when nothing is stored, and an empty cart as well when the stored
        text does not parse (the error is logged, never rethrown). */
    method LoadCartItems(store: KeyValueStore)
      modifies this
      ensures store.cart.Present? ==> cartItems == store.cart.value
      ensures !store.cart.Present? ==> cartItems == []
    {
      match store.cart {
        case Present(parsedCart) =>
          cartItems := parsedCart;
        case Absent =>
          cartItems := [];
        case Corrupt =>
          cartItems := [];
      }
    }

    /** `clearCart`: the cart in memory is emptied and the "cart" key then
        holds an empty list. */
    method ClearCart(store: KeyValueStore)
      modifies this, store`cart
      ensures cartItems == [] && store.cart == Present([])
    {
      cartItems := [];
      store.cart := Present([]);
    }
  }

  /** `useCart`: the provider's value, or an error when no provider encloses
      the caller. */
  function UseCart(context: Option<CartProvider>): (r: Result<CartProvider>)
    ensures r.Failure? <==> context.None?
    ensures r.Failure? ==> r.error == OutsideProvider
    ensures r.Success? ==> r.value == context.value
  {
    match context
    case None => Failure(OutsideProvider)
    case Some(provider) => Success(provider)
  }
}
