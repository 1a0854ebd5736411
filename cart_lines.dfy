/** The line arithmetic of the cart engine (CartController), on values. */
module CartLines {
  import opened Wrappers
  import opened Model

  /** `FirstOrDefault(ci => ci.ProductId == productId)`: the first line for the
      product, if any. */
  function FindLine(items: seq<CartItem>, productId: int): (r: Option<nat>)
    ensures r.Some? ==> r.value < |items| && items[r.value].productId == productId
    ensures r.Some? ==> forall j :: 0 <= j < r.value ==> items[j].productId != productId
    ensures r.None? <==> forall j :: 0 <= j < |items| ==> items[j].productId != productId
    decreases |items|
  {
    if items == [] then None
    else if items[0].productId == productId then Some(0)
    else match FindLine(items[1..], productId)
      case None => None
      case Some(k) => Some(k + 1)
  }

  /** The quantity the cart already holds of the product (0 without a line). */
  function ExistingQuantity(items: seq<CartItem>, productId: int): int
  {
    match FindLine(items, productId)
    case Some(i) => items[i].quantity
    case None => 0
  }

  /** The two stock guards of AddToCart: the requested quantity, and the
      quantity the line reaches after the add, may not exceed the stock. */
  predicate FitsStock(items: seq<CartItem>, productId: int, quantity: int, stock: int)
  {
    quantity <= stock && ExistingQuantity(items, productId) + quantity <= stock
  }

  /** The lines after a successful add: an existing line of the product grows
      by `quantity` and keeps its captured price; otherwise a new un-ordered
      line is appended at `price`. */
  function AddedLines(items: seq<CartItem>, productId: int, quantity: int, price: int): seq<CartItem>
  {
    match FindLine(items, productId)
    case Some(i) => items[i := items[i].(quantity := items[i].quantity + quantity)]
    case None => items + [CartItem(productId, quantity, price, false)]
  }

  /** The lines after deleting line `i`. */
  function RemoveAt(items: seq<CartItem>, i: nat): seq<CartItem>
    requires i < |items|
  {
    items[..i] + items[i + 1..]
  }

  /** `Where(ci => !ci.IsOrdered)`, order kept. */
  function Unordered(items: seq<CartItem>): (r: seq<CartItem>)
    ensures |r| <= |items|
    ensures forall j :: 0 <= j < |r| ==> !r[j].isOrdered && r[j] in items
    ensures forall x :: x in items && !x.isOrdered ==> x in r
    decreases |items|
  {
    if items == [] then []
    else
      var last := items[|items| - 1];
      assert forall x :: x in items ==> x in items[..|items| - 1] || x == last;
      Unordered(items[..|items| - 1]) + (if last.isOrdered then [] else [last])
  }

  /** `CartItems.Sum(ci => ci.Quantity * ci.Product.Price)`: the total at the
      products' current prices, or None when a line's product is missing (the
      null navigation throws). */
  function LiveTotal(items: seq<CartItem>, products: map<int, Product>): (r: Option<int>)
    ensures r.None? <==> exists j :: 0 <= j < |items| && items[j].productId !in products
    decreases |items|
  {
    if items == [] then Some(0)
    else
      var last := items[|items| - 1];
      var front := items[..|items| - 1];
      assert forall j :: 0 <= j < |front| ==> front[j] == items[j];
      match LiveTotal(front, products)
      case None => None
      case Some(t) =>
        if last.productId in products then Some(t + last.quantity * products[last.productId].price)
        else None
  }

  lemma {:induction false} CartTotalAppend(items: seq<CartItem>, x: CartItem)
    ensures CartTotal(items + [x]) == CartTotal(items) + LineTotal(x)
  {
    assert (items + [x])[..|items|] == items;
  }

  /** Replacing one line changes the total by the difference of the two line
      totals. */
  lemma {:induction false} CartTotalUpdate(items: seq<CartItem>, i: nat, x: CartItem)
    requires i < |items|
    ensures CartTotal(items[i := x]) == CartTotal(items) - LineTotal(items[i]) + LineTotal(x)
    decreases |items|
  {
    var n := |items| - 1;
    var front := items[..n];
    if i == n {
      assert items[i := x][..n] == front;
    } else {
      CartTotalUpdate(front, i, x);
      assert items[i := x][..n] == front[i := x];
    }
  }

  /** Deleting a line takes its line total off the sum. */
  lemma {:induction false} CartTotalRemove(items: seq<CartItem>, i: nat)
    requires i < |items|
    ensures CartTotal(RemoveAt(items, i)) == CartTotal(items) - LineTotal(items[i])
    decreases |items|
  {
    var n := |items| - 1;
    if i == n {
      assert RemoveAt(items, i) == items[..n];
    } else {
      CartTotalRemove(items[..n], i);
      assert RemoveAt(items, i) == RemoveAt(items[..n], i) + [items[n]];
      CartTotalAppend(RemoveAt(items[..n], i), items[n]);
    }
  }

  /** A successful add onto an existing line: the cart keeps its length (no
      second line), the line's quantity grows by exactly `quantity` at its
      captured price, and every other line is as it was. */
  lemma AddedLinesMerges(items: seq<CartItem>, productId: int, quantity: int, price: int, i: nat)
    requires i < |items| && items[i].productId == productId
    requires DistinctProducts(items)
    ensures var r := AddedLines(items, productId, quantity, price);
      && |r| == |items|
      && r[i] == items[i].(quantity := items[i].quantity + quantity)
      && (forall j :: 0 <= j < |items| && j != i ==> r[j] == items[j])
      && CartTotal(r) == CartTotal(items) + quantity * items[i].price
  {
    LineOfProduct(items, productId, i);
    var x := items[i].(quantity := items[i].quantity + quantity);
    assert AddedLines(items, productId, quantity, price) == items[i := x];
    CartTotalUpdate(items, i, x);
    Distributes(items[i].quantity, quantity, items[i].price);
    assert LineTotal(x) == LineTotal(items[i]) + quantity * items[i].price;
  }

  /** In a cart with one line per product, the line FindLine returns is the
      product's line. */
  lemma LineOfProduct(items: seq<CartItem>, productId: int, i: nat)
    requires i < |items| && items[i].productId == productId
    requires DistinctProducts(items)
    ensures FindLine(items, productId) == Some(i)
  {
    assert FindLine(items, productId).Some?;
  }

  lemma Distributes(a: int, b: int, c: int)
    ensures (a + b) * c == a * c + b * c
  {
  }

  /** A successful add of a product the cart does not hold appends one line
      with that product's current price. */
  lemma AddedLinesAppends(items: seq<CartItem>, productId: int, quantity: int, price: int)
    requires forall j :: 0 <= j < |items| ==> items[j].productId != productId
    ensures AddedLines(items, productId, quantity, price) == items + [CartItem(productId, quantity, price, false)]
    ensures CartTotal(AddedLines(items, productId, quantity, price)) == CartTotal(items) + quantity * price
  {
    CartTotalAppend(items, CartItem(productId, quantity, price, false));
  }

  /** Adding keeps one line per product, and when the stock guards pass the
      product's line holds no more than the stock. */
  lemma AddedLinesInvariant(items: seq<CartItem>, productId: int, quantity: int, price: int, stock: int)
    requires DistinctProducts(items)
    ensures DistinctProducts(AddedLines(items, productId, quantity, price))
    // every line is the added product's or the line that stood at its place
    ensures var r := AddedLines(items, productId, quantity, price);
      forall k :: 0 <= k < |r| ==> r[k].productId == productId || (k < |items| && r[k].productId == items[k].productId)
    ensures FitsStock(items, productId, quantity, stock) ==>
      var r := AddedLines(items, productId, quantity, price);
      var k := FindLine(r, productId);
      k.Some? && r[k.value].quantity <= stock
  {
    var r := AddedLines(items, productId, quantity, price);
    match FindLine(items, productId)
    case Some(i) =>
      assert forall j :: 0 <= j < |r| ==> r[j].productId == items[j].productId;
      LineOfProduct(r, productId, i);
    case None =>
      assert forall j :: 0 <= j < |items| ==> r[j] == items[j];
      LineOfProduct(r, productId, |items|);
  }

  /** Deleting a line keeps one line per product and removes the product's
      only line. */
  lemma RemoveAtInvariant(items: seq<CartItem>, i: nat)
    requires i < |items| && DistinctProducts(items)
    ensures DistinctProducts(RemoveAt(items, i))
    ensures |RemoveAt(items, i)| == |items| - 1
    ensures FindLine(RemoveAt(items, i), items[i].productId).None?
  {
    var r := RemoveAt(items, i);
    assert forall j :: 0 <= j < |r| ==> r[j] == (if j < i then items[j] else items[j + 1]);
  }

  /** RemoveFromCart does not recompute TotalPrice: when the stored total was
      right and the deleted line was worth something, it is wrong after. */
  lemma RemoveLeavesTotalStale(items: seq<CartItem>, i: nat, storedTotal: int)
    requires i < |items|
    requires storedTotal == CartTotal(items) && LineTotal(items[i]) != 0
    ensures storedTotal != CartTotal(RemoveAt(items, i))
  {
    CartTotalRemove(items, i);
  }

  /** The two pricing rules agree as long as every line's captured price is
      still its product's price. */
  lemma {:induction false} LiveTotalAtCapturedPrices(items: seq<CartItem>, products: map<int, Product>)
    requires forall j :: 0 <= j < |items| ==>
      items[j].productId in products && products[items[j].productId].price == items[j].price
    ensures LiveTotal(items, products) == Some(CartTotal(items))
    decreases |items|
  {
    if items != [] {
      LiveTotalAtCapturedPrices(items[..|items| - 1], products);
    }
  }

  /** After the price of one line's product changes, and no other price, the
      current-price total differs from the captured-price total by exactly
      that line's quantity times the price change. */
  lemma {:induction false} LiveTotalAfterRepricing(items: seq<CartItem>, products: map<int, Product>, i: nat, newPrice: int)
    requires forall j :: 0 <= j < |items| ==>
      items[j].productId in products && products[items[j].productId].price == items[j].price
    requires DistinctProducts(items) && i < |items|
    ensures var pid := items[i].productId;
      LiveTotal(items, products[pid := products[pid].(price := newPrice)])
        == Some(CartTotal(items) + items[i].quantity * (newPrice - items[i].price))
    decreases |items|
  {
    var pid := items[i].productId;
    var repriced := products[pid := products[pid].(price := newPrice)];
    var n := |items| - 1;
    var front := items[..n];
    var last := items[n];
    assert forall j :: 0 <= j < |front| ==> front[j] == items[j];
    if i == n {
      assert forall j :: 0 <= j < |front| ==> front[j].productId != pid;
      LiveTotalAtCapturedPrices(front, repriced);
      assert last.quantity * newPrice == last.quantity * last.price + last.quantity * (newPrice - last.price);
    } else {
      LiveTotalAfterRepricing(front, products, i, newPrice);
      assert last.productId != pid;
    }
  }

  /** After a price change the two totals of one cart differ. */
  lemma LiveTotalDiffersAfterRepricing()
    ensures var items := [CartItem(7, 3, 1000, false)];
      var products := map[7 := Product("A", 1200, 5, 1, 2)];
      CartTotal(items) == 3000 && LiveTotal(items, products) == Some(3600)
  {
    var items := [CartItem(7, 3, 1000, false)];
    assert items[..0] == [];
  }

  // ---------------------------------------------------------------------
  // Int32 arithmetic of the cumulative add (CartController.cs:80-85).

  /** C#'s unchecked 32-bit addition result. */
  function Wrap32(x: int): int
  {
    (x + 0x8000_0000) % 0x1_0000_0000 - 0x8000_0000
  }

  /** The guards as written: `Quantity += request.Quantity` wraps before the
      comparison with the stock. */
  predicate FitsStockAsWritten(existing: int, quantity: int, stock: int)
  {
    !(quantity > stock) && !(Wrap32(existing + quantity) > stock)
  }

  /** A line of 1 unit, a request of int.MaxValue units and a stock of
      int.MaxValue pass both guards as written, and the saved line quantity is
      int.MinValue. */
  lemma MergeOverflowPassesGuards()
    ensures FitsStockAsWritten(1, Int32Max, Int32Max)
    ensures Wrap32(1 + Int32Max) == -0x8000_0000
    ensures 1 + Int32Max > Int32Max
  {
  }

  /** With the intended check (the model's FitsStock), the merged quantity of
      a line of positive Int32 quantities is at most the stock, so the 32-bit
      addition cannot wrap. */
  lemma MergeWithinInt32(items: seq<CartItem>, productId: int, quantity: int, stock: int)
    requires stock <= Int32Max && 1 <= quantity
    requires 0 <= ExistingQuantity(items, productId)
    requires FitsStock(items, productId, quantity, stock)
    ensures Wrap32(ExistingQuantity(items, productId) + quantity) == ExistingQuantity(items, productId) + quantity
    ensures ExistingQuantity(items, productId) + quantity <= stock
  {
    var s := ExistingQuantity(items, productId) + quantity;
    assert 0 <= s + 0x8000_0000 < 0x1_0000_0000;
  }
}
