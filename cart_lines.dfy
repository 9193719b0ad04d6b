/** The cart as a list of lines, and the operations the shop screen and the
    product card apply to it. Lines are matched by product id alone: the
    plan a line may carry plays no part in finding it. */
module CartLines {
  import opened Models
  import opened Prices
  import opened JsText

  /** Some line holds the product with this id. */
  predicate HasId(lines: seq<CartLine>, id: string) {
    exists j :: 0 <= j < |lines| && lines[j].item.id == id
  }

  /** `lines.findIndex(l => l.id === id)`: the first line with that id, or -1. */
  function FindIndex(lines: seq<CartLine>, id: string): (r: int)
    ensures -1 <= r < |lines|
    ensures r == -1 <==> !HasId(lines, id)
    ensures 0 <= r ==> lines[r].item.id == id
    ensures 0 <= r ==> forall j :: 0 <= j < r ==> lines[j].item.id != id
  {
    if lines == [] then -1
    else if lines[0].item.id == id then 0
    else
      var t := FindIndex(lines[1..], id);
      assert forall j :: 1 <= j < |lines| ==> lines[1..][j - 1] == lines[j];
      if t < 0 then -1 else t + 1
  }

  /** No two lines hold the same product. */
  predicate DistinctIds(lines: seq<CartLine>) {
    forall i, j :: 0 <= i < j < |lines| ==> lines[i].item.id != lines[j].item.id
  }

  /** The shape every operation keeps: distinct ids, and at least one unit
      on every line. */
  predicate ValidCart(lines: seq<CartLine>) {
    DistinctIds(lines) && forall i :: 0 <= i < |lines| ==> lines[i].quantity >= 1
  }

  /** The total number of units of one product over all lines: the
      reference the operations are checked against. */
  function QuantityOf(lines: seq<CartLine>, id: string): int {
    if lines == [] then 0
    else (if lines[0].item.id == id then lines[0].quantity else 0) + QuantityOf(lines[1..], id)
  }

  /** A new line for a product: the product with `quantity: 1`. */
  function NewLine(item: Item): CartLine {
    CartLine(item, 1, "")
  }

  /** The line at `i` with `delta` more units. */
  function Bump(lines: seq<CartLine>, i: nat, delta: int): (r: seq<CartLine>)
    requires i < |lines|
  {
    lines[i := lines[i].(quantity := lines[i].quantity + delta)]
  }

  /** Adding a product: an existing line for its id gets one more unit and
      the list keeps its length; otherwise a line with one unit is appended.
      No other line changes. */
  function AddItem(lines: seq<CartLine>, item: Item): (r: seq<CartLine>)
    ensures HasId(lines, item.id) ==>
      var i := FindIndex(lines, item.id);
      && |r| == |lines| && r[i] == lines[i].(quantity := lines[i].quantity + 1)
      && forall j :: 0 <= j < |lines| && j != i ==> r[j] == lines[j]
    ensures !HasId(lines, item.id) ==> r == lines + [NewLine(item)]
    ensures forall j :: 0 <= j < |lines| && lines[j].item.id != item.id ==> r[j] == lines[j]
  {
    var i := FindIndex(lines, item.id);
    if i >= 0 then Bump(lines, i, 1) else lines + [NewLine(item)]
  }

  /** `increaseQuantity`: one more unit on the first line with that id; a
      missing id leaves the cart as it is. */
  function Increase(lines: seq<CartLine>, id: string): (r: seq<CartLine>)
    ensures |r| == |lines|
    ensures !HasId(lines, id) ==> r == lines
    ensures HasId(lines, id) ==>
      var i := FindIndex(lines, id);
      && r[i] == lines[i].(quantity := lines[i].quantity + 1)
      && forall j :: 0 <= j < |lines| && j != i ==> r[j] == lines[j]
    ensures forall j :: 0 <= j < |lines| && lines[j].item.id != id ==> r[j] == lines[j]
  {
    var i := FindIndex(lines, id);
    if i >= 0 then Bump(lines, i, 1) else lines
  }

  /** The list without its line at `i`, the others in their order. */
  function RemoveAt(lines: seq<CartLine>, i: nat): (r: seq<CartLine>)
    requires i < |lines|
    ensures |r| == |lines| - 1
    ensures forall j :: 0 <= j < i ==> r[j] == lines[j]
    ensures forall j :: i <= j < |r| ==> r[j] == lines[j + 1]
  {
    lines[..i] + lines[i + 1..]
  }

  /** `decreaseQuantity`: a line with more than one unit loses one; a line
      with one unit (or fewer) is removed, the other lines keeping their
      order; a missing id leaves the cart as it is. */
  function Decrease(lines: seq<CartLine>, id: string): (r: seq<CartLine>)
    ensures !HasId(lines, id) ==> r == lines
    ensures HasId(lines, id) ==>
      var i := FindIndex(lines, id);
      if lines[i].quantity > 1 then
        && |r| == |lines|
        && r[i] == lines[i].(quantity := lines[i].quantity - 1)
        && forall j :: 0 <= j < |lines| && j != i ==> r[j] == lines[j]
      else
        && |r| == |lines| - 1
        && (forall j :: 0 <= j < i ==> r[j] == lines[j])
        && (forall j :: i <= j < |r| ==> r[j] == lines[j + 1])
  {
    var i := FindIndex(lines, id);
    if i < 0 then lines
    else if lines[i].quantity > 1 then Bump(lines, i, -1)
    else RemoveAt(lines, i)
  }

  // ---------------------------------------------------------------------
  // units per product
  // ---------------------------------------------------------------------

  lemma {:induction false} QuantityOfBump(lines: seq<CartLine>, i: nat, delta: int, id: string)
    requires i < |lines|
    ensures QuantityOf(Bump(lines, i, delta), id)
         == QuantityOf(lines, id) + (if lines[i].item.id == id then delta else 0)
  {
    if i > 0 {
      QuantityOfBump(lines[1..], i - 1, delta, id);
      assert Bump(lines, i, delta)[1..] == Bump(lines[1..], i - 1, delta);
    }
  }

  lemma {:induction false} QuantityOfAppend(lines: seq<CartLine>, tail: seq<CartLine>, id: string)
    ensures QuantityOf(lines + tail, id) == QuantityOf(lines, id) + QuantityOf(tail, id)
  {
    if lines == [] {
      assert lines + tail == tail;
    } else {
      QuantityOfAppend(lines[1..], tail, id);
      assert (lines + tail)[1..] == lines[1..] + tail;
    }
  }

  lemma {:induction false} QuantityOfAbsent(lines: seq<CartLine>, id: string)
    requires !HasId(lines, id)
    ensures QuantityOf(lines, id) == 0
  {
    if lines != [] {
      assert !HasId(lines[1..], id) by {
        forall j | 0 <= j < |lines[1..]| ensures lines[1..][j].item.id != id {
          assert lines[1..][j] == lines[j + 1];
        }
      }
      QuantityOfAbsent(lines[1..], id);
    }
  }

  /** Adding a product puts exactly one more unit of it in the cart and
      leaves every other product's units alone. */
  lemma AddItemQuantities(lines: seq<CartLine>, item: Item, id: string)
    ensures QuantityOf(AddItem(lines, item), id)
         == QuantityOf(lines, id) + (if id == item.id then 1 else 0)
  {
    var i := FindIndex(lines, item.id);
    if i >= 0 {
      QuantityOfBump(lines, i, 1, id);
    } else {
      QuantityOfAppend(lines, [NewLine(item)], id);
      assert [NewLine(item)][1..] == [];
    }
  }

  /** `increaseQuantity` adds one unit of that product, if the cart holds
      it, and no unit of any other. */
  lemma IncreaseQuantities(lines: seq<CartLine>, id: string, other: string)
    ensures QuantityOf(Increase(lines, id), other)
         == QuantityOf(lines, other) + (if other == id && HasId(lines, id) then 1 else 0)
  {
    var i := FindIndex(lines, id);
    if i >= 0 {
      QuantityOfBump(lines, i, 1, other);
    }
  }

  lemma {:induction false} QuantityOfRemoveAt(lines: seq<CartLine>, i: nat, id: string)
    requires i < |lines|
    ensures QuantityOf(RemoveAt(lines, i), id)
         == QuantityOf(lines, id) - (if lines[i].item.id == id then lines[i].quantity else 0)
  {
    QuantityOfAppend(lines[..i], lines[i + 1..], id);
    assert lines == lines[..i] + lines[i..];
    QuantityOfAppend(lines[..i], lines[i..], id);
    assert lines[i..][1..] == lines[i + 1..];
  }

  /** In a valid cart `decreaseQuantity` takes away exactly one unit of that
      product, whether the line shrinks or goes, and no unit of any other. */
  lemma DecreaseQuantities(lines: seq<CartLine>, id: string, other: string)
    requires ValidCart(lines)
    ensures QuantityOf(Decrease(lines, id), other)
         == QuantityOf(lines, other) - (if other == id && HasId(lines, id) then 1 else 0)
  {
    var i := FindIndex(lines, id);
    if i >= 0 {
      if lines[i].quantity > 1 {
        QuantityOfBump(lines, i, -1, other);
      } else {
        QuantityOfRemoveAt(lines, i, other);
      }
    }
  }

  // ---------------------------------------------------------------------
  // the cart invariant
  // ---------------------------------------------------------------------

  lemma AddItemKeepsValid(lines: seq<CartLine>, item: Item)
    requires ValidCart(lines)
    ensures ValidCart(AddItem(lines, item))
  {
    var r := AddItem(lines, item);
    if !HasId(lines, item.id) {
      forall i, j | 0 <= i < j < |r| ensures r[i].item.id != r[j].item.id {
        if j == |lines| {
          assert r[i] == lines[i];
        }
      }
    }
  }

  lemma IncreaseKeepsValid(lines: seq<CartLine>, id: string)
    requires ValidCart(lines)
    ensures ValidCart(Increase(lines, id))
  {
  }

  lemma DecreaseKeepsValid(lines: seq<CartLine>, id: string)
    requires ValidCart(lines)
    ensures ValidCart(Decrease(lines, id))
  {
    var i := FindIndex(lines, id);
    if i >= 0 && lines[i].quantity <= 1 {
      var r := RemoveAt(lines, i);
      forall a, b | 0 <= a < b < |r| ensures r[a].item.id != r[b].item.id {
        var a' := if a < i then a else a + 1;
        var b' := if b < i then b else b + 1;
        assert r[a] == lines[a'] && r[b] == lines[b'];
      }
    }
  }

  /** With distinct ids, the first line with an id is its only line. */
  lemma DistinctFind(lines: seq<CartLine>, id: string, j: nat)
    requires DistinctIds(lines) && j < |lines| && lines[j].item.id == id
    ensures FindIndex(lines, id) == j
  {
  }

  // ---------------------------------------------------------------------
  // totals
  // ---------------------------------------------------------------------

  /** What one line contributes to the cart total, for a reading `unit` of
      price texts. */
  function LineValue(l: CartLine, unit: string -> real): real {
    unit(l.item.price) * l.quantity as real
  }

  /** The left-to-right sum of unit price times quantity, starting from 0. */
  function Total(lines: seq<CartLine>, unit: string -> real): real {
    if lines == [] then 0.0
    else Total(lines[..|lines| - 1], unit) + LineValue(lines[|lines| - 1], unit)
  }

  /** Every price text of the cart carries no leading '-' once cleaned, and
      every quantity is at least 0. */
  predicate UnsignedPrices(lines: seq<CartLine>) {
    forall i :: 0 <= i < |lines| ==>
      lines[i].quantity >= 0 && !Negative(TrimStart(StripFirstMarks(lines[i].item.price)))
  }

  /** `calculateTotal`: the total with prices read by `parsePriceToNumber`.
      A cart without signed prices never totals below 0. */
  function CartTotal(lines: seq<CartLine>): (r: real)
    ensures UnsignedPrices(lines) ==> r >= 0.0
  {
    UnsignedCartTotal(lines);
    Total(lines, ParsePriceToNumber)
  }

  lemma UnsignedCartTotal(lines: seq<CartLine>)
    ensures UnsignedPrices(lines) ==> Total(lines, ParsePriceToNumber) >= 0.0
  {
    if UnsignedPrices(lines) {
      UnsignedLineValues(lines);
      TotalNonNegative(lines, ParsePriceToNumber);
    }
  }

  /** Lines that each add at least 0 total at least 0. */
  lemma {:induction false} TotalNonNegative(lines: seq<CartLine>, unit: string -> real)
    requires forall i :: 0 <= i < |lines| ==> LineValue(lines[i], unit) >= 0.0
    ensures Total(lines, unit) >= 0.0
  {
    if lines != [] {
      var init := lines[..|lines| - 1];
      assert forall i :: 0 <= i < |init| ==> init[i] == lines[i];
      TotalNonNegative(init, unit);
    }
  }

  lemma UnsignedLineValues(lines: seq<CartLine>)
    requires UnsignedPrices(lines)
    ensures forall i :: 0 <= i < |lines| ==> LineValue(lines[i], ParsePriceToNumber) >= 0.0
  {
    forall i | 0 <= i < |lines| ensures LineValue(lines[i], ParsePriceToNumber) >= 0.0 {
      ParsePriceToNumberSign(lines[i].item.price);
      LineValueNonNegative(lines[i], ParsePriceToNumber);
    }
  }

  /** A line whose unit price and quantity are at least 0 adds at least 0. */
  lemma LineValueNonNegative(l: CartLine, unit: string -> real)
    requires l.quantity >= 0 && unit(l.item.price) >= 0.0
    ensures LineValue(l, unit) >= 0.0
  {
    MulNonNegative(unit(l.item.price), l.quantity as real);
  }

  lemma MulNonNegative(a: real, b: real)
    requires a >= 0.0 && b >= 0.0
    ensures a * b >= 0.0
  {
  }

  lemma {:induction false} TotalAppend(a: seq<CartLine>, b: seq<CartLine>, unit: string -> real)
    ensures Total(a + b, unit) == Total(a, unit) + Total(b, unit)
  {
    if b == [] {
      assert a + b == a;
    } else {
      var b' := b[..|b| - 1];
      assert (a + b)[..|a + b| - 1] == a + b';
      assert (a + b)[|a + b| - 1] == b[|b| - 1];
      TotalAppend(a, b', unit);
    }
  }

  /** The running total over a prefix grows by the next line's value. */
  lemma TotalStep(lines: seq<CartLine>, k: nat, unit: string -> real)
    requires k < |lines|
    ensures Total(lines[..k + 1], unit) == Total(lines[..k], unit) + LineValue(lines[k], unit)
  {
    assert lines[..k + 1][..k] == lines[..k];
  }

  /** The `reduce` behind a cart total: from 0, each line in turn adds its
      unit price times its quantity. */
  method SumLines(lines: seq<CartLine>, unit: string -> real) returns (total: real)
    ensures total == Total(lines, unit)
  {
    total := 0.0;
    for k := 0 to |lines|
      invariant total == Total(lines[..k], unit)
    {
      var price := unit(lines[k].item.price);
      TotalStep(lines, k, unit);
      total := total + price * lines[k].quantity as real;
    }
    assert lines[..|lines|] == lines;
  }

  lemma TotalSplit(lines: seq<CartLine>, i: nat, unit: string -> real)
    requires i < |lines|
    ensures Total(lines, unit)
         == Total(lines[..i], unit) + LineValue(lines[i], unit) + Total(lines[i + 1..], unit)
  {
    var pre, mid, post := lines[..i], [lines[i]], lines[i + 1..];
    assert lines == (pre + mid) + post;
    TotalAppend(pre + mid, post, unit);
    TotalAppend(pre, mid, unit);
    TotalSingle(lines[i], unit);
  }

  lemma TotalSingle(l: CartLine, unit: string -> real)
    ensures Total([l], unit) == LineValue(l, unit)
  {
    assert [l][..0] == [];
  }

  lemma Distribute(p: real, q: int, delta: int)
    ensures p * (q + delta) as real == p * q as real + p * delta as real
  {
  }

  lemma TotalBump(lines: seq<CartLine>, i: nat, delta: int, unit: string -> real)
    requires i < |lines|
    ensures Total(Bump(lines, i, delta), unit)
         == Total(lines, unit) + unit(lines[i].item.price) * delta as real
  {
    var r := Bump(lines, i, delta);
    var extra := unit(lines[i].item.price) * delta as real;
    assert LineValue(r[i], unit) == LineValue(lines[i], unit) + extra by {
      Distribute(unit(lines[i].item.price), lines[i].quantity, delta);
    }
    assert r[..i] == lines[..i] && r[i + 1..] == lines[i + 1..];
    TotalSplit(lines, i, unit);
    TotalSplit(r, i, unit);
  }

  /** Adding a product raises the total by one unit price: the price on the
      cart's line for that id when there is one, which is the product as it
      was when first added, otherwise the product's own price. */
  lemma TotalAfterAddItem(lines: seq<CartLine>, item: Item, unit: string -> real)
    ensures Total(AddItem(lines, item), unit) == Total(lines, unit) + unit(
      if HasId(lines, item.id) then lines[FindIndex(lines, item.id)].item.price else item.price)
  {
    var i := FindIndex(lines, item.id);
    if i >= 0 {
      assert AddItem(lines, item) == Bump(lines, i, 1);
      TotalBump(lines, i, 1, unit);
    } else {
      assert AddItem(lines, item) == lines + [NewLine(item)];
      assert Total([NewLine(item)], unit) == unit(item.price) by {
        assert [NewLine(item)][..0] == [];
      }
      TotalAppend(lines, [NewLine(item)], unit);
    }
  }

  /** `increaseQuantity` raises the total by that line's unit price. */
  lemma TotalAfterIncrease(lines: seq<CartLine>, id: string, unit: string -> real)
    ensures Total(Increase(lines, id), unit) == Total(lines, unit) + (
      if HasId(lines, id) then unit(lines[FindIndex(lines, id)].item.price) else 0.0)
  {
    var i := FindIndex(lines, id);
    if i >= 0 {
      TotalBump(lines, i, 1, unit);
    }
  }

  /** In a valid cart `decreaseQuantity` lowers the total by that line's unit
      price, whether the line shrinks or goes. */
  lemma TotalAfterDecrease(lines: seq<CartLine>, id: string, unit: string -> real)
    requires ValidCart(lines)
    ensures Total(Decrease(lines, id), unit) == Total(lines, unit) - (
      if HasId(lines, id) then unit(lines[FindIndex(lines, id)].item.price) else 0.0)
  {
    var i := FindIndex(lines, id);
    if i >= 0 {
      if lines[i].quantity > 1 {
        TotalBump(lines, i, -1, unit);
      } else {
        assert LineValue(lines[i], unit) == unit(lines[i].item.price) by {
          assert lines[i].quantity == 1;
        }
        TotalSplit(lines, i, unit);
        TotalAppend(lines[..i], lines[i + 1..], unit);
      }
    }
  }
}
