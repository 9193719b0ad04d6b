/** The records the storefront passes between screens, storage and the
    database layer. An optional string property that the source leaves
    `undefined` is the empty string here: every reader in the source tests
    such a property for truthiness, where `undefined` and "" behave alike. */
module Models {
  import opened Wrappers

  /** A product (`Item`), with the extra properties the database layer and the
      plan catalogs attach: `targetScreen`, `planPrices` and the stock
      `quantity` read from the products table. */
  datatype Item = Item(
    id: string,
    name: string,
    price: string,
    category: string,
    description: string,
    images: seq<string>,
    targetScreen: string,
    planPrices: Option<map<string, string>>,
    quantity: Option<int>)

  /** A cart line: the product snapshot taken when it was first added, the
      number of units, and the plan the checkout screen reads (`selectedPlan`).
      In the source the line is the product object spread with a `quantity`
      property, which overrides the product's stock quantity. */
  datatype CartLine = CartLine(item: Item, quantity: int, selectedPlan: string)

  /** A sale recorded by the shop screen; `date` is the sale time in
      milliseconds since the epoch. */
  datatype Sale = Sale(id: string, items: seq<CartLine>, total: real, date: int)

  /** An order waiting to be sent to the remote endpoint. */
  datatype Order = Order(
    id: string,
    items: seq<CartLine>,
    total: real,
    date: string,
    customerName: string,
    customerCpf: string)
}
