# Sulprev shop: a verified model of the storefront's logic

Sulprev shop is a React Native storefront for a funeral-services business.
Its catalog screens ("Funerária", "Parque", "Planos") list products from
an on-device SQLite table. A shop screen keeps a cart and records sales in
the device's key-value store (AsyncStorage). A checkout screen validates
the customer's form and commits an order. Orders that cannot reach the
remote endpoint wait in a queue that is flushed when the device is online
again.

This project models the logic behind those screens in Dafny and proves
what it promises:

- **Cart lines** (`CartLines`, `Shop`, `ProductCard`, `CartContext`).
  - Lines are matched by product id alone.
  - Adding a product raises the quantity of its line or appends a line
    with one unit.
  - Increase and decrease change exactly one line. A line at one unit is
    removed.
  - The cart total is the sum of unit price times quantity.
  - Every operation keeps the ids distinct and every quantity at least 1.
- **Prices** (`Prices`, `JsText`). There are two different cleaners of
  pt-BR price texts:
  - `formatPrice` drops every '.'.
  - `parsePriceToNumber` rewrites only the first "R$ ", the first '.' and
    the first ','. It misreads "R$ 1.234.567,89" as 1234.567.
  - `parseFloat`, `parseInt`, `trim`, `indexOf` and `replace` are
    modelled on strings.
- **Checkout** (`Checkout`).
  - The CPF and CEP input masks.
  - The plan-dependent price of a line, and its total.
  - The ordered validation gate.
  - The commit, after which the cart is cleared and the form is reset.
- **Product collections** (`HomeUtils`, `ItemRepository`, `NewItem`).
  - The list helpers that set and store the products.
  - The SQLite products table as a map from `id_product` to row, with the
    AUTOINCREMENT counter.
  - The new/edit item form.
- **Pending orders** (`SendOrder`). Appending an order to the queue, and
  the flush that keeps exactly the orders whose id was never sent.
- **Sales and home cards** (`AllSales`, `Home`).
  - Sorting sales newest first, in place on an array.
  - The time-window filters.
  - The home cards' title and image overrides, with their save/load round
    trip.

The device store is a class with one typed slot per key. A slot is
`Absent`, `Corrupt` (text that `JSON.parse` rejects) or `Present(value)`.
JSON encoding is the identity. JavaScript numbers are `NaN | Num(real)`.
The following are parameters of the operations that use them:

- the network's response and the connectivity flag;
- the success of the database commit and engine failures;
- the clock (`now`, the new ids);
- the calendar-day function;
- the locale formatter.

Screens whose handlers change state step by step are classes with those
fields. Their methods carry `modifies` clauses and are proved against the
specification functions.

## Model

| member | source | states |
|---|---|---|
| JsText.OrZero | src/screens/Shop.tsx:53 | `n \|\| 0`: a truthy number is kept; NaN and 0 give 0 |
| JsText.IndexOf | src/screens/Shop.tsx:49-52 | the first position where the pattern occurs, none before it, or no position at all |
| JsText.ReplaceFirst | src/screens/Shop.tsx:49-52 | a string-pattern `replace` rewrites only the first occurrence, and everything before and after it is kept; without an occurrence the text is unchanged |
| JsText.IndexOfChar | src/screens/Shop.tsx:50-52 | a one-character pattern is found exactly when the character occurs, at its first position |
| JsText.ReplaceFirstChar | src/utils/formatPrice.ts:7 | `.replace(",", ".")` changes exactly the position of the first ',', and nothing when there is none |
| JsText.ReplaceFirstAtStart | src/screens/Shop.tsx:50 | a pattern at the start of the text is the one that is replaced |
| JsText.ReplaceFirstAfter | src/screens/Shop.tsx:51-52 | when the text before a character holds none of it, that character is the one replaced |
| JsText.RemoveAll | src/utils/formatPrice.ts:7 | `/\./g` removes every occurrence and keeps the count of every other character |
| JsText.RemoveAllAppend | src/utils/formatPrice.ts:7 | a global removal distributes over concatenation |
| JsText.KeepDigits | src/screens/Checkout.tsx:65 | `/\D/g` leaves only digits, and leaves a digit string as it is |
| JsText.KeepDigitsAppend | src/screens/Checkout.tsx:65 | stripping non-digits distributes over concatenation |
| JsText.TrimStart | src/screens/NewItem.tsx:69 | a suffix of the text, after a blank prefix, that starts with no white space |
| JsText.TrimEnd | src/screens/NewItem.tsx:69 | a prefix of the text, before a blank suffix, that ends with no white space |
| JsText.Trim | src/screens/NewItem.tsx:69 | `trim()` is empty exactly when the text is blank; otherwise neither end is white space |
| JsText.TrimEmptyIffBlank | src/screens/NewItem.tsx:69 | trimming both ends leaves nothing exactly when every character is white space |
| JsText.DigitPrefix | src/screens/Shop.tsx:53 | the longest run of digits at the start of the text |
| JsText.DigitsValue | src/screens/Shop.tsx:53 | the value of k decimal digits is below 10^k |
| JsText.FractionValue | src/screens/Shop.tsx:53 | the digits after the point are worth less than 1 |
| JsText.DecimalValue | src/screens/Shop.tsx:53 | `ip.fp` lies between the whole part and the whole part plus one |
| JsText.UnsignedDecimal | src/screens/Shop.tsx:53 | an unsigned decimal literal is NaN exactly when no literal starts the text, and is never negative |
| JsText.ParseFloat | src/screens/Shop.tsx:53 | `parseFloat` is NaN exactly when, after white space and one sign, no decimal literal starts; without '-' it is never negative |
| JsText.ParseInt | src/screens/Checkout.tsx:164 | `parseInt` without a radix is NaN exactly when, after white space and sign, no hexadecimal digit follows a "0x"/"0X" prefix or, without that prefix, no decimal digit follows; otherwise it is a whole number, non-negative without '-' |
| JsText.ParseIntHex | src/screens/Checkout.tsx:164 | "0x"/"0X" and hexadecimal digits parse to their base-16 value, whatever non-hex text follows |
| JsText.ParseIntDecimal | src/screens/Checkout.tsx:164 | decimal digits not opening "0x" parse to their base-10 value, whatever non-digit text follows |
| JsText.ParseIntBareHex | src/screens/Checkout.tsx:164 | "0x" with no hexadecimal digit after it is NaN, not 0 |
| JsText.DigitPrefixOfDigits | src/screens/Shop.tsx:53 | the digits run ends at the first non-digit |
| JsText.ParseFloatDigits | src/screens/Shop.tsx:53 | a plain digit string parses to its value |
| JsText.UnsignedDecimalSplit | src/screens/Shop.tsx:53 | the reading stops at the first character that cannot continue the literal |
| JsText.ParseFloatDecimal | src/screens/Shop.tsx:53 | `ddd.fff` followed by non-digit text parses to its decimal value |
| JsText.ParseFloatPoint | src/utils/formatPrice.ts:8 | `ddd.fff` parses to its decimal value |
| Seqs.FilterIsSubsequence | src/utils/homeUtils.ts:59 | `filter` keeps a subsequence, in order |
| Seqs.FilterMembership | src/utils/sendOrder.ts:85-87 | an element survives `filter` exactly when it is in the list and passes the test |
| Seqs.FilterAll | src/screens/AllSales.tsx:69-70 | a test every element passes keeps the list whole |
| Seqs.FilterNarrower | src/screens/AllSales.tsx:65-68 | filtering by a narrower test after a wider one equals filtering by the narrower one |
| Prices.StripCurrencyAndSpace | src/utils/formatPrice.ts:7 | `/R\$\|\s/g` leaves no white space and adds no character |
| Prices.StripPlain | src/utils/formatPrice.ts:7 | text with no 'R' and no white space is unchanged by the first rewrite |
| Prices.Dotless | src/utils/formatPrice.ts:7 | after the first two rewrites, no '.' and no white space remain |
| Prices.FirstCommaToPoint | src/utils/formatPrice.ts:7 | in dotless text, `.replace(",", ".")` leaves one '.', exactly at the first ',', and keeps later commas |
| Prices.CleanPrice | src/utils/formatPrice.ts:7 | the `formatPrice` cleaning: every "R$" and white space dropped, every '.' dropped, the first ',' made the point; its length is the dotless text's (a comma is replaced, never removed) |
| Prices.CleanPriceShape | src/utils/formatPrice.ts:7 | the cleaned text has no white space, no '.' from the input, and a '.' only where the first ',' was |
| Prices.FormatPrice | src/utils/formatPrice.ts:2-21 | NaN, and only NaN, gives exactly "R$ 0,00"; otherwise the parsed amount is formatted, and a number argument passes through uncleaned |
| Prices.CleanPtBr | src/utils/formatPrice.ts:7 | for "R$ g,fp", every thousands dot is removed and the comma becomes the point |
| Prices.FormatPriceReadsPtBr | src/utils/formatPrice.ts:7-8 | "R$ 1.234,56" formats the amount 1234.56, whatever the number of thousands dots |
| Prices.StripFirstMarks | src/screens/Shop.tsx:49-52 | the `parsePriceToNumber` cleaning, which rewrites only the first "R$ ", the first '.' and the first ','; `StripMarksOfMillions` and `ParsePriceOfThousands` show what that leaves |
| Prices.ParsePriceToNumber | src/screens/Shop.tsx:48-54 | `parseFloat` of the cleaned text when that is a non-zero number, and 0 for NaN and for 0 |
| Prices.ParsePriceToNumberSign | src/screens/Shop.tsx:48-54 | text with no number once cleaned is worth 0; text without a leading '-' is never negative |
| Prices.ParsePriceOfPlain | src/screens/Shop.tsx:48-54 | a price below one thousand, "R$ a,fp", is read exactly |
| Prices.ParsePriceOfThousands | src/screens/Shop.tsx:48-54 | a price with one thousands dot is read exactly |
| Prices.StripMarksOfMillions | src/screens/Shop.tsx:49-52 | with two thousands dots only the first goes, and the second becomes the decimal point |
| Prices.DigitsValueAppend | src/screens/Shop.tsx:53 | appending k digits multiplies the value by 10^k and adds theirs |
| Prices.ParsePriceMisreadsMillions | src/screens/Shop.tsx:48-54 | "R$ a.b.c,fp" is read by the cart as `ab.c`, while `formatPrice` reads it as `abc.fp`; the cart's reading is the smaller |
| Prices.MillionsOrder | src/screens/Shop.tsx:48-54 | the first-occurrence reading of a millions price is below the full one |
| Prices.ParsePriceOfNonNumber | src/screens/Shop.tsx:53 | text without marks and without a leading number, such as "Preço indisponível", is worth 0 |
| CartLines.FindIndex | src/screens/Shop.tsx:33-35 | `findIndex` by id: -1 exactly when no line has the id, otherwise the first line that has it |
| CartLines.AddItem | src/screens/Shop.tsx:30-43 | an existing id keeps the length, its first line gains one unit and every other line is unchanged; a new id appends a line with one unit |
| CartLines.Increase | src/screens/Shop.tsx:63-72 | the length is kept; the first line with the id gains one unit and every other line is unchanged; an absent id leaves the cart equal |
| CartLines.RemoveAt | src/screens/Shop.tsx:82 | `splice(i, 1)` drops line i and keeps the others in order |
| CartLines.Decrease | src/screens/Shop.tsx:74-87 | a line above one unit loses one unit, keeps its product and plan, and every other line is unchanged; otherwise that line is removed and the others keep their order; an absent id leaves the cart equal |
| CartLines.QuantityOfBump | src/screens/Shop.tsx:38 | bumping line i changes only the units of that line's product |
| CartLines.QuantityOfAppend | src/screens/Shop.tsx:41 | units of a product add up over concatenated lists |
| CartLines.QuantityOfAbsent | src/screens/Shop.tsx:33-35 | a product without a line has no units |
| CartLines.AddItemQuantities | src/screens/Shop.tsx:30-43 | adding puts exactly one more unit of that product in the cart, and no unit of any other |
| CartLines.IncreaseQuantities | src/screens/Shop.tsx:63-72 | increasing adds one unit of a product in the cart, and none of any other |
| CartLines.QuantityOfRemoveAt | src/screens/Shop.tsx:82 | removing a line takes away exactly its units |
| CartLines.DecreaseQuantities | src/screens/Shop.tsx:74-87 | in a valid cart, decreasing takes away exactly one unit of that product and none of any other |
| CartLines.AddItemKeepsValid | src/screens/Shop.tsx:30-43 | ids stay distinct and quantities stay at least 1 after an add |
| CartLines.IncreaseKeepsValid | src/screens/Shop.tsx:63-72 | ids stay distinct and quantities at least 1 after an increase |
| CartLines.DecreaseKeepsValid | src/screens/Shop.tsx:74-87 | ids stay distinct and quantities at least 1 after a decrease |
| CartLines.DistinctFind | src/screens/Shop.tsx:66-77 | with distinct ids, the first line with an id is its only one |
| CartLines.TotalAppend | src/screens/Shop.tsx:57-60 | the total distributes over concatenated lists |
| CartLines.Total | src/screens/Shop.tsx:56-61 | the left-to-right sum of unit price times quantity, starting from 0, that `SumLines` computes; `TotalAppend` and `TotalSplit` state how it decomposes |
| CartLines.TotalNonNegative | src/screens/Shop.tsx:56-61 | lines that each add at least 0 total at least 0 |
| CartLines.CartTotal | src/screens/Shop.tsx:56-61 | `calculateTotal` reads prices with `parsePriceToNumber`; a cart without a leading '-' in any cleaned price and without negative quantities never totals below 0 |
| CartLines.UnsignedCartTotal | src/screens/Shop.tsx:56-61 | the cart total read with `parsePriceToNumber` is at least 0 when no cleaned price carries a leading '-' and no quantity is negative |
| CartLines.UnsignedLineValues | src/screens/Shop.tsx:48-60 | every line of a cart without signed prices adds at least 0 |
| CartLines.LineValueNonNegative | src/screens/Shop.tsx:59 | a line with a unit price and quantity of at least 0 adds at least 0 |
| CartLines.TotalStep | src/screens/Shop.tsx:57-60 | each step of the `reduce` adds the next line's price times its quantity |
| CartLines.SumLines | src/screens/Shop.tsx:56-61 | the `reduce` loop computes the sum of unit price times quantity over all lines |
| CartLines.TotalSplit | src/screens/Shop.tsx:57-60 | the total is the part before line i, plus line i, plus the part after it |
| CartLines.TotalBump | src/screens/Shop.tsx:68-80 | changing a line's quantity by d changes the total by d unit prices |
| CartLines.TotalAfterAddItem | src/screens/Shop.tsx:30-43 | adding raises the total by one unit price: the existing line's, or the product's own |
| CartLines.TotalAfterIncrease | src/screens/Shop.tsx:63-72 | increasing raises the total by that line's unit price, and an absent id changes nothing |
| CartLines.TotalAfterDecrease | src/screens/Shop.tsx:74-87 | in a valid cart, decreasing lowers the total by that line's unit price, whether the line shrinks or goes |
| Shop.RecordSale | src/screens/Shop.tsx:98-101 | a missing list starts empty; the sale goes last and earlier sales stay; an unparseable list is left as it was |
| Shop.ShopScreen.constructor | src/screens/Shop.tsx:26 | the cart starts empty |
| Shop.ShopScreen.AddSelectedItem | src/screens/Shop.tsx:28-46 | with a selected item the cart becomes `AddItem` of it; without one it is unchanged; the cart invariant is kept |
| Shop.ShopScreen.IncreaseQuantity | src/screens/Shop.tsx:63-72 | the cart becomes `Increase` of it, and the invariant is kept |
| Shop.ShopScreen.DecreaseQuantity | src/screens/Shop.tsx:74-87 | the cart becomes `Decrease` of it, and the invariant is kept |
| Shop.ShopScreen.CalculateTotal | src/screens/Shop.tsx:56-61 | the cart total, and 0 for an empty cart |
| Shop.ShopScreen.SaveSale | src/screens/Shop.tsx:90-106 | the stored sales gain one sale holding the cart and its total, at the end |
| Shop.ShopScreen.HandleCheckout | src/screens/Shop.tsx:108-129 | an empty cart or a cancel changes nothing; a confirmation records the sale, then empties the cart |
| ProductCard.CurrentModalItem | src/components/ProductCard.tsx:60 | for a non-empty list, exactly `items[currentModalIndex]` when the index is inside it and nothing (undefined) outside it; with no list or an empty one, the card's own product |
| ProductCard.PriceDisplay | src/components/ProductCard.tsx:62-65 | the plan's entry only for "Parque" with a plan table and a plan, undefined when the plan is missing; otherwise the price or "Preço indisponível" |
| ProductCard.AddToCart | src/components/ProductCard.tsx:128-153 | the stored cart (absent = empty) gets the product added by id and is written back; `onAddToCart` runs only after a successful write; an error writes and calls nothing |
| CartContext.CartProvider.constructor | src/utils/CartContext.tsx:33 | the cart starts empty |
| CartContext.CartProvider.LoadCartItems | src/utils/CartContext.tsx:35-48 | the stored list when present; an empty cart when absent or unparseable, with nothing thrown |
| CartContext.CartProvider.ClearCart | src/utils/CartContext.tsx:50-54 | the cart is empty and the "cart" key holds an empty list |
| CartContext.UseCart | src/utils/CartContext.tsx:64-69 | an error with the provider message exactly when there is no provider, otherwise the provider's value |
| Checkout.Group | src/screens/Checkout.tsx:66 | a regular-expression group of at most k digits captures at most k |
| Checkout.JoinKeepDigits | src/screens/Checkout.tsx:69-70 | joining digit groups with a non-digit separator strips back to the groups |
| Checkout.ConcatNonEmpty | src/screens/Checkout.tsx:69 | `filter(Boolean)` does not change the concatenation |
| Checkout.FilterLeading | src/screens/Checkout.tsx:69 | when the first m groups are the non-empty ones, `filter(Boolean)` keeps exactly them |
| Checkout.JoinSnoc | src/screens/Checkout.tsx:70 | a join ends with the separator and the last part |
| Checkout.FormatCpf | src/screens/Checkout.tsx:64-74 | more than 11 digits return the typed text |
| Checkout.DashLastSix | src/screens/Checkout.tsx:71 | `replace(/(\d{3})(\d{3})$/, "$1-$2")`: a '-' before the last three characters exactly when the last six are digits; `CpfDashNeverApplies` shows it never fires on the joined groups |
| Checkout.DashLastSixAfterPoint | src/screens/Checkout.tsx:71 | text whose last '.' is followed by at most five characters is not rewritten |
| Checkout.CpfGroupsLeading | src/screens/Checkout.tsx:66-69 | the non-empty CPF groups are the leading ones |
| Checkout.CpfDashNeverApplies | src/screens/Checkout.tsx:71 | with at most 11 digits the `$1-$2` rewrite never matches |
| Checkout.CpfGroups | src/screens/Checkout.tsx:66 | the four capture groups of `^(\d{0,3})(\d{0,3})(\d{0,3})(\d{0,2})$`, each taken greedily; `CpfGroupsConcat` and `CpfPartsDigits` state their content |
| Checkout.CpfGroupsConcat | src/screens/Checkout.tsx:66 | the four groups concatenate to the digits |
| Checkout.CpfPartsDigits | src/screens/Checkout.tsx:66-69 | every kept group holds only digits |
| Checkout.CpfJoinedDigits | src/screens/Checkout.tsx:66-70 | the joined groups strip back to the digits |
| Checkout.CpfJoinedNoDash | src/screens/Checkout.tsx:66-70 | the joined groups hold no '-' |
| Checkout.FormatCpfKeepsDigits | src/screens/Checkout.tsx:64-74 | with at most 11 digits, the output strips back to exactly the digits typed and holds no '-' |
| Checkout.JoinCharacters | src/screens/Checkout.tsx:70 | every character of a join comes from a part or the separator |
| Checkout.CpfElevenJoined | src/screens/Checkout.tsx:66-70 | eleven digits fill all four groups, joined with '.' |
| Checkout.FormatCpfEleven | src/screens/Checkout.tsx:64-74 | eleven digits come out as "ddd.ddd.ddd.dd" |
| Checkout.FormatCep | src/screens/Checkout.tsx:76-83 | more than 8 digits return the typed text |
| Checkout.CepGroups | src/screens/Checkout.tsx:78 | the two capture groups of `^(\d{0,5})(\d{0,3})$`; `CepJoined` states what joining them gives |
| Checkout.CepJoined | src/screens/Checkout.tsx:78-81 | up to five digits as typed; beyond that the first five, '-' and the rest |
| Checkout.CepDashed | src/screens/Checkout.tsx:80-81 | the dashed CEP strips back to its digits and holds a '-' |
| Checkout.FormatCepShape | src/screens/Checkout.tsx:76-83 | with at most 8 digits: the first ≤5 digits, then '-' and the rest only when there is a rest; stripping non-digits returns the digits |
| Checkout.GetItemPrice | src/screens/Checkout.tsx:109-117 | a plan-priced line (a plan, a plan table, "Parque" or "Planos") gets its plan's entry, or "Preço indisponível" when the entry is missing or empty, never the product price; any other line gets the product price, or "Preço indisponível" when it is empty |
| Checkout.PlanosPricedDifferently | src/screens/Checkout.tsx:109-117 | for "Planos" the checkout charges the plan price while the product card shows the product's own price |
| Checkout.ParquePricedAlike | src/components/ProductCard.tsx:62-65 | for "Parque" the card and the checkout agree on a priced plan |
| Checkout.UnavailableMarks | src/screens/Checkout.tsx:113-116 | "Preço indisponível" has no currency mark and no separator |
| Checkout.UnavailableNoNumber | src/screens/Checkout.tsx:113-116 | "Preço indisponível" starts with no number |
| Checkout.UnavailableReadsZero | src/screens/Checkout.tsx:122-124 | "Preço indisponível" is read as 0 |
| Checkout.LineTotal | src/screens/Checkout.tsx:122-124 | the line total shown at checkout: the price text of `getItemPrice` read by the given reading, times the quantity; `LineTotalWithoutPrice` and `LineTotalMatchesCart` state its values |
| Checkout.LineTotalWithoutPrice | src/screens/Checkout.tsx:122-124 | a line without a usable price adds 0, whatever its quantity |
| Checkout.LineTotalMatchesCart | src/screens/Checkout.tsx:122-124 | a line not priced by a plan counts at checkout what it counts in the shop total |
| Checkout.MissingRequired | src/screens/Checkout.tsx:155-156 | some required field is falsy, the CPF counted by its digits and the neighborhood not required; `Validate` refuses exactly these forms first |
| Checkout.BadInstallments | src/screens/Checkout.tsx:164 | credit with empty installments or installments `parseInt` reads as a number at most 0; NaN is not caught |
| Checkout.Validate | src/screens/Checkout.tsx:155-167 | missing fields, then CPF length, then credit installments, each refusal exactly when the checks before it passed |
| Checkout.ValidFormHolds | src/screens/Checkout.tsx:155-167 | a form that passes has every required field, 11 CPF digits, and for credit a non-empty installments text that does not parse to ≤ 0 |
| Checkout.UnparsedInstallmentsPass | src/screens/Checkout.tsx:164 | credit with installments that do not parse (NaN) passes the gate |
| Checkout.OrderRequestOf | src/screens/Checkout.tsx:182-202 | the customer carries the CPF's digits, the neighborhood or "Não informado" when it is empty, and the other fields as typed; the order carries the payment type, `parseInt(installments)` for credit and no installments otherwise, the cart's lines and the total |
| Checkout.ValidatedOrder | src/screens/Checkout.tsx:155-202 | a request built from a form that passed the gate has an 11-digit CPF, a non-empty neighborhood and, for credit, installments that are NaN or above 0 |
| Checkout.HexInstallmentsCommitted | src/screens/Checkout.tsx:164-199 | credit installments written "0x" and hexadecimal digits pass the gate and are committed as their base-16 value |
| Checkout.CheckoutScreen.constructor | src/screens/Checkout.tsx:49-58 | every form field starts at its initial value |
| Checkout.CheckoutScreen.ClearFormFields | src/screens/Checkout.tsx:141-152 | every form field is back at its initial value |
| Checkout.CheckoutScreen.SelectPaymentOption | src/screens/Checkout.tsx:230-233 | the option becomes the payment type; any option but "Crédito" clears installments; nothing else changes |
| Checkout.CheckoutScreen.HandleFinishOrder | src/screens/Checkout.tsx:154-225 | a refused form or a failed commit changes nothing; only after a commit are the cart cleared and the form reset |
| HomeUtils.WithCategory | src/utils/homeUtils.ts:11-14 | a falsy category becomes "Sem Categoria"; every other field is kept |
| HomeUtils.LoadedProducts | src/utils/homeUtils.ts:11-14 | same length, each product with its category defaulted |
| HomeUtils.UpdatedProducts | src/utils/homeUtils.ts:43-45 | same length; exactly the products with that id are replaced, the others are unchanged |
| HomeUtils.LoadedProductsOnlyCategory | src/utils/homeUtils.ts:11-14 | loading changes nothing but falsy categories |
| HomeUtils.UpdateAbsentId | src/utils/homeUtils.ts:43-45 | an id no product has leaves the list equal |
| HomeUtils.RemovedProducts | src/utils/homeUtils.ts:59 | `products.filter(p => p.id !== id)`; `RemovedProductsSpec` states its content |
| HomeUtils.RemovedProductsSpec | src/utils/homeUtils.ts:59 | exactly the products with another id, in order; none with that id remains |
| HomeUtils.RemoveAbsentId | src/utils/homeUtils.ts:59 | removing an absent id leaves the list equal |
| HomeUtils.RemoveUndoesAdd | src/utils/homeUtils.ts:28-59 | removing a freshly added id gives back the list before the add |
| HomeUtils.LoadProducts | src/utils/homeUtils.ts:7-20 | a stored list is loaded with categories defaulted; nothing stored or unparseable leaves the products as they were |
| HomeUtils.AddNewProduct | src/utils/homeUtils.ts:22-34 | the list with the new product last, set and stored alike |
| HomeUtils.UpdateProduct | src/utils/homeUtils.ts:36-51 | the updated list, set and stored alike |
| HomeUtils.RemoveProduct | src/utils/homeUtils.ts:53-65 | the filtered list, set and stored alike |
| ItemRepository.DecimalText | src/database/itemRepository.ts:7 | `toString` of an id is a non-empty digit string |
| ItemRepository.DecimalTextValue | src/database/itemRepository.ts:7 | the decimal text reads back as the id |
| ItemRepository.IdRoundTrip | src/database/itemRepository.ts:7 | an item's id selects its own row again |
| ItemRepository.ToItem | src/database/itemRepository.ts:6-16 | the id is the row id in decimal; images are read back; a null price is absent; the plan table is kept |
| ItemRepository.RowOf | src/database/itemRepository.ts:26-35 | quantity 0 when falsy, price null exactly when falsy, images as given |
| ItemRepository.ReadBackWritten | src/database/itemRepository.ts:6-52 | a product written and read back keeps every field, and its quantity is 0 when falsy |
| ItemRepository.ItemsFor | src/database/itemRepository.ts:67-71 | the items of the rows on a target screen, in id order; `ItemsForMembership` states which |
| ItemRepository.ItemsForMembership | src/database/itemRepository.ts:67-71 | an item is selected exactly when it is the item of a row on that target screen |
| ItemRepository.ItemsForScreen | src/database/itemRepository.ts:67-71 | every selected item is on the target screen, and every row on it is selected |
| ItemRepository.ProductTable.constructor | src/database/itemSchema.ts:8-16 | an empty table whose AUTOINCREMENT counter starts at 1 |
| ItemRepository.MissingRequired | src/database/itemRepository.ts:22 | the name, description, target screen or category is empty, or the images are missing; `InsertProduct` writes nothing then |
| ItemRepository.ProductTable.InsertProduct | src/database/itemRepository.ts:19-58 | a missing required field or an engine error writes nothing; otherwise exactly one row is added, under a fresh id |
| ItemRepository.ProductTable.GetProductsByTargetScreen | src/database/itemRepository.ts:61-78 | the items of exactly the rows on that target screen, or the engine's error |
| ItemRepository.ProductTable.UpdateProduct | src/database/itemRepository.ts:81-116 | every column of the matching row is overwritten; a NOT NULL violation, an engine error or an unknown id changes nothing |
| ItemRepository.ProductTable.DeleteProduct | src/database/itemRepository.ts:119-128 | only the row with that id goes |
| ItemRepository.ProductTable.GetProductById | src/database/itemRepository.ts:131-152 | null when no row has the id, otherwise `toItem` of its row |
| SendOrder.SendOrderToApi | src/utils/sendOrder.ts:26-47 | true exactly for an ok response; a non-ok response or a network error gives false |
| SendOrder.Enqueued | src/utils/sendOrder.ts:52-55 | the order goes last and the queue keeps its entries; a missing queue starts empty |
| SendOrder.SuccessfulIds | src/utils/sendOrder.ts:77-83 | the ids of the attempted orders whose send succeeded, in order; `SuccessfulIdsMembership` states which |
| SendOrder.SuccessfulIdsMembership | src/utils/sendOrder.ts:77-83 | an id is recorded exactly when some attempted order with it succeeded |
| SendOrder.Remaining | src/utils/sendOrder.ts:85-88 | the queue filtered to the orders whose id is not among the sent ones; `RemainingSpec` states its content |
| SendOrder.RemainingSpec | src/utils/sendOrder.ts:85-88 | the new queue is a subsequence, never longer, and keeps exactly the orders none of whose id was sent |
| SendOrder.AllSentEmpties | src/utils/sendOrder.ts:85-88 | when every attempt succeeds the queue is emptied |
| SendOrder.NoneSentKeeps | src/utils/sendOrder.ts:85-88 | when no attempt succeeds the queue stays as it was |
| SendOrder.SaveOrderLocally | src/utils/sendOrder.ts:50-60 | the stored queue gains the order at the end |
| SendOrder.SendPendingOrders | src/utils/sendOrder.ts:63-93 | nothing stored, empty or offline changes nothing; otherwise every order is tried once in order and the rest is kept |
| SendOrder.SendOrder | src/utils/sendOrder.ts:96-113 | queued exactly unless connected and sent, and then queued once |
| AllSales.SortNewestFirst | src/screens/AllSales.tsx:38 | the array ends newest first, and is a permutation of what it held |
| AllSales.Insert | src/screens/AllSales.tsx:38 | one insertion step extends the newest-first prefix, keeping the elements |
| AllSales.Swap | src/screens/AllSales.tsx:38 | two positions exchange their sales, and the elements are kept |
| AllSales.WindowBounds | src/screens/AllSales.tsx:60-68 | "7days" keeps sales at most 604800000 ms old, "30days" those at most 2592000000, bounds included |
| AllSales.Keeps | src/screens/AllSales.tsx:58-72 | the test of one filter chip: same calendar day for "today", at most 7 or 30 days of difference, and always for "all"; `WindowBounds` states the windows in milliseconds |
| AllSales.FilterSales | src/screens/AllSales.tsx:56-74 | `filterSales`: the sales the chosen test keeps, in order; `FilterSalesSubsequence` states its content |
| AllSales.FilterSalesSubsequence | src/screens/AllSales.tsx:56-74 | every filter keeps a subsequence, and exactly the sales it accepts |
| AllSales.AllShowsEverything | src/screens/AllSales.tsx:69-70 | "all" returns every sale |
| AllSales.SevenWithinThirty | src/screens/AllSales.tsx:65-68 | the "7days" result is the "30days" result filtered again, so a subsequence of it |
| AllSales.TodaySameDay | src/screens/AllSales.tsx:63-64 | "today" keeps exactly the sales on the calendar day of now, in order |
| AllSales.FutureSalesKept | src/screens/AllSales.tsx:60-68 | a sale dated at or after now passes both windows |
| AllSales.FilterKeepsNewestFirst | src/screens/AllSales.tsx:38-58 | filtering a newest-first list leaves it newest first |
| AllSales.AllSalesScreen.constructor | src/screens/AllSales.tsx:29-30 | no sales, filter "all" |
| AllSales.AllSalesScreen.LoadSales | src/screens/AllSales.tsx:33-44 | a stored list is loaded sorted newest first, a permutation of it; nothing stored leaves the list as it was |
| AllSales.AllSalesScreen.ListedNewestFirst | src/screens/AllSales.tsx:56-74 | the listed sales stay newest first under every filter |
| Home.Set | src/screens/Home.tsx:61-73 | a card with one field set, id, screen and other field unchanged |
| Home.Override | src/screens/Home.tsx:63-72 | a saved non-empty value wins, otherwise the card's own value |
| Home.LoadOnto | src/screens/Home.tsx:53-81 | `loadSavedData` on given cards: no cards when a slot does not parse, otherwise images then titles overridden from the saved maps; `LoadOntoSpec` states each field |
| Home.LoadedCards | src/screens/Home.tsx:53-81 | `loadSavedData` on the initial cards; `SaveLoadRoundTrip` states the round trip |
| Home.LoadOntoSpec | src/screens/Home.tsx:53-81 | unparseable saved data leaves the cards; otherwise each field is the saved value or the card's own |
| Home.IdMap | src/screens/Home.tsx:88-105 | the save `reduce`: one entry per card id, a later card overriding an earlier one; `IdMapOfDistinct` states its entries |
| Home.IdMapOfDistinct | src/screens/Home.tsx:88-105 | the `reduce` maps every card id to that card's field |
| Home.MergeSaved | src/screens/Home.tsx:59-75 | loading a map saved from same-shaped cards gives back their non-empty values |
| Home.SaveLoadRoundTrip | src/screens/Home.tsx:86-111 | saved titles and images are restored on load; empty ones fall back to the original |
| Home.SaveLoadIdentity | src/screens/Home.tsx:53-111 | cards with every field filled are restored exactly by saving then loading |
| Home.LoadedFilled | src/screens/Home.tsx:53-81 | loading keeps the card shape and every field filled |
| Home.InitialCardsValid | src/screens/Home.tsx:29-33 | the three initial cards are filled and have distinct ids |
| Home.FindCard | src/screens/Home.tsx:120 | `find` by id: the first card with that id (none before it has the id), or none exactly when no card has it |
| Home.Retitle | src/screens/Home.tsx:174-176 | the `map` that gives every card with that id the new title; `RetitleValid` states what it keeps |
| Home.RetitleValid | src/screens/Home.tsx:174-176 | renaming a card keeps the cards valid and changes only that card's title |
| Home.HomeScreen.constructor | src/screens/Home.tsx:46-49 | the initial cards, modal closed, nothing selected, empty input |
| Home.HomeScreen.LoadSavedData | src/screens/Home.tsx:53-81 | the cards become the loaded cards; an unparseable store leaves them |
| Home.HomeScreen.HandleLongPress | src/screens/Home.tsx:118-124 | selects the card, pre-fills its title (empty when unknown) and opens the modal |
| Home.HomeScreen.HandleTitleChange | src/screens/Home.tsx:168-182 | no selection or a blank title alerts and changes nothing; otherwise the card is retitled with the trimmed text, the titles are stored, and the modal is reset |
| NewItem.OrText | src/screens/NewItem.tsx:33-51 | `x \|\| fallback` for text |
| NewItem.InitialPrice | src/screens/NewItem.tsx:34-38 | the `useState` price: null without an item or with an empty price, otherwise `parseFloat` of the first-occurrence cleaning |
| NewItem.LoadedPrice | src/screens/NewItem.tsx:48-49 | the effect's price: that reading, with NaN and 0 made null; `LoadedPriceReadsAsCart` states it |
| NewItem.LoadedPriceReadsAsCart | src/screens/NewItem.tsx:48-49 | the loaded price is null exactly when the cart would read it as 0, otherwise that reading |
| NewItem.ZeroPriceDroppedOnLoad | src/screens/NewItem.tsx:34-49 | a price parsing to 0 or NaN is kept by the initialiser but dropped by the edit effect |
| NewItem.CanSave | src/screens/NewItem.tsx:68-74 | the save gate: name, category and description not blank, a price that is not null, and at least one image; `CanSaveTrims` ties it to the `trim()` test |
| NewItem.CanSaveTrims | src/screens/NewItem.tsx:68-77 | the save gate is the trimmed-text test as written |
| NewItem.ZeroPricePasses | src/screens/NewItem.tsx:70 | a price of 0 or NaN passes the gate, and only a null price fails |
| NewItem.SaveEdited | src/screens/NewItem.tsx:95-102 | with a stored list every product of that id is replaced and home receives the list; otherwise the screen stays |
| NewItem.NewItemScreen.constructor | src/screens/NewItem.tsx:33-41 | the form starts from the item to edit, or empty with the first category |
| NewItem.NewItemScreen.LoadItemToEdit | src/screens/NewItem.tsx:45-54 | an item to edit fills the form, its price through `\|\| null`; otherwise nothing changes |
| NewItem.NewItemScreen.ItemToSave | src/screens/NewItem.tsx:86-93 | the product a save builds: the route's id when editing, else the new id, the form's fields and the formatted price |
| NewItem.NewItemScreen.HandleSaveItem | src/screens/NewItem.tsx:67-113 | an incomplete form alerts and changes nothing; editing replaces the stored product; adding hands the item on and resets the form |

## Left out

- Float arithmetic and locale formatting. Amounts are exact rationals. `Intl.NumberFormat`, `toFixed` and `toLocaleString` are not modelled; the NewItem formatter is the parameter `toCurrency`.
- `parseFloat`'s exponent and "Infinity" forms. Only the `ddd.fff` decimal form with an optional sign is read.
- The viacep lookup (src/screens/Checkout.tsx:85-107), the `fetch` of `sendOrderToApi`, and the NetInfo listener with its 60-second unsubscribe. They are network and timer I/O; responses and connectivity are inputs.
- The users, orders and payment tables. `getOrCreateUser` and `saveOrder` are not part of this model; the commit of `handleFinishOrder` is one step whose success is a parameter.
- SQLite engine details. An id argument selects a row only when it is a digit string; affinity conversions of other forms (" 5", "+5") are not modelled. A SELECT without ORDER BY is taken to return rows in id order.
- src/database/db.ts, init.ts and the schema DDL. The schema supplies only the NOT NULL columns and the AUTOINCREMENT counter.
- Image picking and the file system (src/screens/Home.tsx:126-166, src/utils/imageUtils.ts). The Home image fields are loaded, merged and saved, but never picked.
- ProductCard modal sizing, styling, navigation, `navigation.setParams`, alerts and toasts.
- `Date.now()` ids and ISO date strings. Ids are parameters, sale dates are integer milliseconds, and the calendar day is the abstract function `dayOf`.
- Storage write failures, except in `addToCart`, where the write outcome is a parameter.
- A stored JSON "null" or a payload of the wrong shape. A slot is absent, unparseable or a value of the right type.
- React's state-updater scheduling and the sharing of objects between renders.
- A product whose price is `undefined` (which throws in `parsePriceToNumber` and `.replace`) is modelled with the empty price "".
- The Parque and Planos screens. Their only logic, filtering by id after a delete, is `removeProduct`.
- Shop.ShopScreen.AddSelectedItem: the source raises `quantity` on the line object shared with the previous state (src/screens/Shop.tsx:38); the model computes a new list and does not capture that aliasing.
- AllSales.SortNewestFirst: the stability of `Array.prototype.sort` for sales with equal dates is not stated; only order and permutation are.
- ItemRepository.ProductTable.GetProductsByTargetScreen: the row order is assumed to be id order, which SQLite does not promise without ORDER BY.
- ProductCard.CurrentModalItem: the index is taken as given; the source's `currentIndex || 0` default when the modal opens is not modelled.
- Checkout.CheckoutScreen.HandleFinishOrder: the un-awaited `initializeDatabase` call (src/screens/Checkout.tsx:178) and the success alert are not modelled.
