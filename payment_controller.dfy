/** PaymentController: paying for an order and looking a payment up. */
module PaymentController {
  import opened Wrappers
  import opened Model
  import opened Requests
  import opened Data

  /** The products after the stock loop of MakePayment, and the index of the
      order line whose product lacked stock, if the loop stopped at one. */
  datatype Settlement = Settlement(products: map<int, Product>, shortfall: Option<nat>)

  /** The stock loop over the order lines, first to last: a line whose
      product is gone is skipped; a line that asks for more than the product
      holds stops the loop; otherwise the stock drops by the line's quantity.
      Every decrement is saved at once, so the decrements before a shortfall
      persist. */
  function SettleStock(products: map<int, Product>, items: seq<OrderItem>): (r: Settlement)
    ensures r.products.Keys == products.Keys
    // only StockQuantity changes
    ensures forall pid :: pid in products ==>
      r.products[pid] == products[pid].(stockQuantity := r.products[pid].stockQuantity)
    // a stock that was decremented was at least the quantity taken
    ensures forall pid :: pid in products && r.products[pid].stockQuantity != products[pid].stockQuantity ==>
      r.products[pid].stockQuantity >= 0
    ensures r.shortfall.Some? ==> r.shortfall.value < |items|
    decreases |items|
  {
    if items == [] then Settlement(products, None)
    else
      var n := |items| - 1;
      var before := SettleStock(products, items[..n]);
      var line := items[n];
      if before.shortfall.Some? || line.productId !in before.products then before
      else
        var product := before.products[line.productId];
        if product.stockQuantity < line.quantity then Settlement(before.products, Some(n))
        else Settlement(before.products[line.productId := product.(stockQuantity := product.stockQuantity - line.quantity)], None)
  }

  /** The quantity the order lines ask of one product. */
  function Demand(items: seq<OrderItem>, productId: int): int
    decreases |items|
  {
    if items == [] then 0
    else
      var n := |items| - 1;
      Demand(items[..n], productId) + (if items[n].productId == productId then items[n].quantity else 0)
  }

  /** When no line falls short, every product's stock has dropped by exactly
      what the order asks of it. */
  lemma {:induction false} SettleStockTakesDemand(products: map<int, Product>, items: seq<OrderItem>)
    requires SettleStock(products, items).shortfall.None?
    ensures forall pid :: pid in products ==>
      SettleStock(products, items).products[pid].stockQuantity == products[pid].stockQuantity - Demand(items, pid)
    decreases |items|
  {
    if items != [] {
      var n := |items| - 1;
      SettleStockTakesDemand(products, items[..n]);
    }
  }

  /** The loop stops at the first line that falls short: the lines before it
      settle, the stock left by them is below that line's quantity, and the
      products stay as those lines left them. */
  lemma {:induction false} ShortfallIsFirst(products: map<int, Product>, items: seq<OrderItem>)
    requires SettleStock(products, items).shortfall.Some?
    ensures var k := SettleStock(products, items).shortfall.value;
      var before := SettleStock(products, items[..k]);
      && k < |items|
      && before.shortfall.None?
      && items[k].productId in before.products
      && before.products[items[k].productId].stockQuantity < items[k].quantity
      && SettleStock(products, items).products == before.products
    decreases |items|
  {
    var n := |items| - 1;
    var before := SettleStock(products, items[..n]);
    if before.shortfall.Some? {
      ShortfallIsFirst(products, items[..n]);
      var k := before.shortfall.value;
      assert items[..n][..k] == items[..k];
    } else {
      assert SettleStock(products, items).shortfall == Some(n);
    }
  }

  /** With quantities of at least 1 (every order line comes from a cart line,
      whose quantity is at least 1), the loop gets through the whole order
      exactly when no product the order asks for is asked for more than its
      stock. */
  lemma {:induction false} SettlesIffStockCovers(products: map<int, Product>, items: seq<OrderItem>)
    requires forall k :: 0 <= k < |items| ==> items[k].quantity >= 1
    ensures SettleStock(products, items).shortfall.None? <==>
      forall pid :: pid in products && 0 < Demand(items, pid) ==> Demand(items, pid) <= products[pid].stockQuantity
    decreases |items|
  {
    if items != [] {
      var n := |items| - 1;
      var line := items[n];
      var prefix := items[..n];
      SettlesIffStockCovers(products, prefix);
      DemandOfLast(items);
      var before := SettleStock(products, prefix);
      if before.shortfall.None? {
        SettleStockTakesDemand(products, prefix);
        if line.productId !in products {
          assert SettleStock(products, items).shortfall.None?;
          assert forall pid :: pid in products ==> Demand(items, pid) == Demand(prefix, pid);
        } else if before.products[line.productId].stockQuantity < line.quantity {
          assert SettleStock(products, items).shortfall.Some?;
          DemandNonNegative(prefix, line.productId);
          assert Demand(items, line.productId) > products[line.productId].stockQuantity;
        } else {
          assert SettleStock(products, items).shortfall.None?;
          assert forall pid :: pid in products && 0 < Demand(items, pid) ==> Demand(items, pid) <= products[pid].stockQuantity;
        }
      } else {
        assert SettleStock(products, items).shortfall.Some?;
        assert !forall pid :: pid in products && 0 < Demand(prefix, pid) ==> Demand(prefix, pid) <= products[pid].stockQuantity;
        assert forall pid :: Demand(prefix, pid) <= Demand(items, pid);
      }
    }
  }

  /** Quantities that are not negative make a demand that is not negative. */
  lemma {:induction false} DemandNonNegative(items: seq<OrderItem>, productId: int)
    requires forall k :: 0 <= k < |items| ==> items[k].quantity >= 0
    ensures Demand(items, productId) >= 0
    decreases |items|
  {
    if items != [] {
      DemandNonNegative(items[..|items| - 1], productId);
    }
  }

  /** What the last line asks of a product. */
  function LastDemand(items: seq<OrderItem>, productId: int): int
    requires items != []
  {
    if items[|items| - 1].productId == productId then items[|items| - 1].quantity else 0
  }

  /** The demand of an order is that of all lines but the last, plus the
      last line's quantity for its own product. */
  lemma DemandOfLast(items: seq<OrderItem>)
    requires items != []
    ensures forall pid :: Demand(items, pid) == Demand(items[..|items| - 1], pid) + LastDemand(items, pid)
  {
  }

  /** The users with the order's total taken from one wallet. */
  function Debited(users: map<int, User>, userId: int, amount: int): (r: map<int, User>)
    requires userId in users
    ensures r.Keys == users.Keys
    ensures r[userId] == users[userId].(walletBalance := users[userId].walletBalance - amount)
    ensures forall id :: id in users && id != userId ==> r[id] == users[id]
  {
    users[userId := users[userId].(walletBalance := users[userId].walletBalance - amount)]
  }

  /** POST make-payment. Any authenticated customer may pay any order; there
      is no guard on the order's current status. The outcome of sending the
      confirmation email is the parameter `emailDelivered`. */
  method MakePayment(db: Store, orderId: int, amount: int, paymentMode: string, emailDelivered: bool)
    returns (r: Response<()>)
    requires db.Valid()
    modifies db`users, db`payments, db`orders, db`products
    ensures db.Valid()
    ensures !ValidPaymentRequest(amount, paymentMode) ==> r == BadRequest && unchanged(db)
    ensures ValidPaymentRequest(amount, paymentMode) && orderId !in old(db.orders) ==>
      r == NotFound && unchanged(db)
    ensures ValidPaymentRequest(amount, paymentMode) && orderId in old(db.orders) ==>
      var order := old(db.orders)[orderId];
      var userId := order.userId;
      if userId !in old(db.users) then r == NotFound && unchanged(db)
      else if amount != order.totalAmount then r == BadRequest && unchanged(db)
      else if paymentMode == "Wallet" && old(db.users)[userId].walletBalance < order.totalAmount then
        r == BadRequest && unchanged(db)
      else
        var settled := SettleStock(old(db.products), order.items);
        // the wallet is debited, the payment stored and the order marked paid
        // before any stock is checked
        && db.users == (if paymentMode == "Wallet" then Debited(old(db.users), userId, order.totalAmount) else old(db.users))
        && db.payments == old(db.payments) + [Payment(orderId, userId, amount, paymentMode, Completed)]
        && db.orders == old(db.orders)[orderId := order.(status := Paid)]
        && db.products == settled.products
        && r == (if settled.shortfall.Some? then BadRequest else if emailDelivered then Ok(()) else ServerError)
  {
    if !ValidPaymentRequest(amount, paymentMode) {
      return BadRequest;
    }
    if orderId !in db.orders {
      return NotFound;
    }
    var order := db.orders[orderId];
    if order.userId !in db.users {
      return NotFound;
    }
    var user := db.users[order.userId];
    if amount != order.totalAmount {
      return BadRequest;
    }
    // The mode list checked here is the DTO's, so every mode reaching this
    // point is one of Wallet, CreditCard and COD.
    if paymentMode == "Wallet" {
      if user.walletBalance < order.totalAmount {
        return BadRequest;
      }
      var debited := user.(walletBalance := user.walletBalance - order.totalAmount);
      PutUser(db.users, order.userId, debited);
      SameKeys(db.users, db.users[order.userId := debited], db.nextUserId);
      UsersKept(db.carts, db.users, db.users[order.userId := debited]);
      db.users := db.users[order.userId := debited];  // UpdateUserAsync saves
    }
    db.payments := db.payments + [Payment(orderId, order.userId, amount, paymentMode, Completed)];
    SameKeys(db.orders, db.orders[orderId := order.(status := Paid)], db.nextOrderId);
    db.orders := db.orders[orderId := order.(status := Paid)];
    ghost var before := db.products;
    var shortfall := SettleOrderStock(db, order.items);
    SameKeys(before, db.products, db.nextProductId);
    if shortfall.Some? {
      return BadRequest;
    }
    if !emailDelivered {
      return ServerError;
    }
    r := Ok(());
  }

  /** The stock loop of MakePayment (PaymentController.cs:98-116), saving
      after every decrement. */
  method SettleOrderStock(db: Store, items: seq<OrderItem>) returns (shortfall: Option<nat>)
    modifies db`products
    ensures Settlement(db.products, shortfall) == SettleStock(old(db.products), items)
  {
    ghost var products0 := db.products;
    var i := 0;
    while i < |items|
      invariant 0 <= i <= |items|
      invariant SettleStock(products0, items[..i]) == Settlement(db.products, None)
    {
      SettleStep(products0, items, i, db.products);
      var line := items[i];
      if line.productId in db.products {
        var product := db.products[line.productId];
        if product.stockQuantity < line.quantity {
          assert SettleStock(products0, items[..i + 1]).shortfall == Some(i);
          StopsAtShortfall(products0, items, i);
          return Some(i);
        }
        db.products := db.products[line.productId := product.(stockQuantity := product.stockQuantity - line.quantity)];
      }
      i := i + 1;
    }
    assert items[..i] == items;
    shortfall := None;
  }

  /** One turn of the stock loop. */
  lemma SettleStep(products: map<int, Product>, items: seq<OrderItem>, i: nat, current: map<int, Product>)
    requires i < |items|
    requires SettleStock(products, items[..i]) == Settlement(current, None)
    ensures var line := items[i];
      SettleStock(products, items[..i + 1]) ==
        if line.productId !in current then Settlement(current, None)
        else if current[line.productId].stockQuantity < line.quantity then Settlement(current, Some(i))
        else Settlement(current[line.productId := current[line.productId].(stockQuantity := current[line.productId].stockQuantity - line.quantity)], None)
  {
    assert items[..i + 1][..i] == items[..i];
  }

  /** Once a prefix of the lines falls short, the whole order falls short
      with the same products. */
  lemma {:induction false} StopsAtShortfall(products: map<int, Product>, items: seq<OrderItem>, k: nat)
    requires k < |items|
    requires SettleStock(products, items[..k + 1]).shortfall.Some?
    ensures SettleStock(products, items) == SettleStock(products, items[..k + 1])
    decreases |items| - k
  {
    if k + 1 < |items| {
      assert items[..|items| - 1][..k + 1] == items[..k + 1];
      StopsAtShortfall(products, items[..|items| - 1], k);
    } else {
      assert items[..k + 1] == items;
    }
  }

  /** The first payment recorded for the order. */
  function FirstPaymentFor(payments: seq<Payment>, orderId: int): (r: Option<nat>)
    ensures r.Some? ==> r.value < |payments| && payments[r.value].orderId == orderId
    ensures r.Some? ==> forall j :: 0 <= j < r.value ==> payments[j].orderId != orderId
    ensures r.None? <==> forall j :: 0 <= j < |payments| ==> payments[j].orderId != orderId
    decreases |payments|
  {
    if payments == [] then None
    else if payments[0].orderId == orderId then Some(0)
    else
      match FirstPaymentFor(payments[1..], orderId)
      case None => None
      case Some(j) => Some(j + 1)
  }

  /** GET {orderId}: the first payment of the order, whoever the caller is. */
  method GetPaymentByOrderId(db: Store, orderId: int) returns (r: Response<Payment>)
    ensures r.NotFound? <==> forall j :: 0 <= j < |db.payments| ==> db.payments[j].orderId != orderId
    ensures r.Ok? ==> r.value.orderId == orderId && r.value in db.payments
    ensures r.Ok? ==> exists k :: FirstPaymentFor(db.payments, orderId) == Some(k) && db.payments[k] == r.value
    ensures r.Ok? || r.NotFound?
  {
    var k := FirstPaymentFor(db.payments, orderId);
    if k.None? {
      return NotFound;
    }
    r := Ok(db.payments[k.value]);
  }
}
