/** The device's persisted key-value store (AsyncStorage), with one typed
    slot per key the storefront uses. JSON encoding is the identity; a value
    that `JSON.parse` would reject is `Corrupt`. */
module Storage {
  import opened Models

  /** The content of one key: nothing stored (or a falsy string), text that
      does not parse, or a parsed value. */
  datatype Slot<T> = Absent | Corrupt | Present(value: T)

  class KeyValueStore {
    /** key "cart" */
    var cart: Slot<seq<CartLine>>
    /** key "sales" */
    var sales: Slot<seq<Sale>>
    /** key "products" */
    var products: Slot<seq<Item>>
    /** key "pendingOrders" */
    var pendingOrders: Slot<seq<Order>>
    /** key "@HomeCardImages" */
    var homeImages: Slot<map<string, string>>
    /** key "@HomeCardTitles" */
    var homeTitles: Slot<map<string, string>>

    /** A store with nothing saved under any key. */
    constructor ()
      ensures cart == Absent && sales == Absent && products == Absent
      ensures pendingOrders == Absent && homeImages == Absent && homeTitles == Absent
    {
      cart, sales, products := Absent, Absent, Absent;
      pendingOrders, homeImages, homeTitles := Absent, Absent, Absent;
    }
  }
}
