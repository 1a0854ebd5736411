/** OrderController: turning a cart into an order, and the caller's orders. */
module OrderController {
  import opened Wrappers
  import opened Model
  import opened Requests
  import opened Data
  import opened CartLines

  /** The order line made from one cart line: product, quantity and captured
      price are copied and TotalPrice is their product. */
  function OrderLine(c: CartItem): (r: OrderItem)
    ensures r.productId == c.productId && r.quantity == c.quantity && r.price == c.price
    ensures r.totalPrice == LineTotal(c)
  {
    OrderItem(c.productId, c.quantity, c.price, c.quantity * c.price)
  }

  /** The frozen snapshot of the collected cart lines, one order line each,
      in the same order. */
  function Snapshot(cartItems: seq<CartItem>): seq<OrderItem>
  {
    seq(|cartItems|, k requires 0 <= k < |cartItems| => OrderLine(cartItems[k]))
  }

  /** The order's TotalAmount is the cart total at the captured prices. */
  lemma {:induction false} SnapshotTotal(cartItems: seq<CartItem>)
    ensures OrderTotal(Snapshot(cartItems)) == CartTotal(cartItems)
    decreases |cartItems|
  {
    if cartItems != [] {
      var n := |cartItems|;
      assert Snapshot(cartItems)[..n - 1] == Snapshot(cartItems[..n - 1]);
      SnapshotTotal(cartItems[..n - 1]);
    }
  }

  /** The first foreach of CreateOrder: one order line per cart line, and the
      running sum of their TotalPrice. */
  method BuildOrderItems(cartItems: seq<CartItem>) returns (orderItems: seq<OrderItem>, totalAmount: int)
    ensures orderItems == Snapshot(cartItems)
    ensures |orderItems| == |cartItems|
    ensures totalAmount == OrderTotal(orderItems) == CartTotal(cartItems)
  {
    orderItems := [];
    totalAmount := 0;
    var i := 0;
    while i < |cartItems|
      invariant 0 <= i <= |cartItems|
      invariant orderItems == Snapshot(cartItems[..i])
      invariant totalAmount == OrderTotal(orderItems)
    {
      var orderItem := OrderLine(cartItems[i]);
      assert (orderItems + [orderItem])[..|orderItems|] == orderItems;
      assert cartItems[..i + 1] == cartItems[..i] + [cartItems[i]];
      orderItems := orderItems + [orderItem];
      totalAmount := totalAmount + orderItem.totalPrice;
      i := i + 1;
    }
    assert cartItems[..i] == cartItems;
    SnapshotTotal(cartItems);
  }

  /** The lines CreateOrder collects: the un-ordered lines of the user's cart. */
  function Collected(carts: map<int, Cart>, userId: int): (r: seq<CartItem>)
    ensures forall x :: x in r <==> userId in carts && x in carts[userId].items && !x.isOrdered
    ensures r != [] ==> userId in carts
  {
    if userId in carts then Unordered(carts[userId].items) else []
  }

  /** POST: places an order for `userId` (taken from the body, not from the
      claim). Returns the new order's id with the order. */
  method CreateOrder(db: Store, userId: int, shippingAddress: string, pinCode: string)
    returns (r: Response<(int, Order)>)
    requires db.Valid()
    modifies db`orders, db`nextOrderId, db`carts
    ensures db.Valid()
    ensures !r.Ok? ==>
      && r == BadRequest
      && (!ValidOrderRequest(shippingAddress, pinCode) || userId <= 0 || Collected(old(db.carts), userId) == [])
      && unchanged(db)
    ensures r.Ok? ==>
      var collected := Collected(old(db.carts), userId);
      var id := old(db.nextOrderId);
      var order := r.value.1;
      && ValidOrderRequest(shippingAddress, pinCode) && 0 < userId && collected != []
      && r.value.0 == id && id !in old(db.orders)
      && order == Order(userId, PendingPayment, shippingAddress, pinCode, Snapshot(collected), CartTotal(collected))
      && |order.items| == |collected|
      && order.totalAmount == OrderTotal(order.items)
      && db.orders == old(db.orders)[id := order]
      && db.nextOrderId == id + 1
      // every line of the cart is removed; the cart row and its stored total remain
      && userId in old(db.carts)
      && db.carts == old(db.carts)[userId := Cart(old(db.carts)[userId].totalPrice, [])]
  {
    if !ValidOrderRequest(shippingAddress, pinCode) || userId <= 0 {
      return BadRequest;
    }
    var cartItems := Collected(db.carts, userId);
    if |cartItems| == 0 {
      return BadRequest;
    }
    var orderItems, totalAmount := BuildOrderItems(cartItems);
    var order := Order(userId, PendingPayment, shippingAddress, pinCode, orderItems, totalAmount);
    var id := db.nextOrderId;
    db.orders := db.orders[id := order];  // CreateOrderAsync
    db.nextOrderId := id + 1;
    var cart := db.carts[userId];
    PutCart(db.carts, db.users, userId, cart.(items := []));
    db.carts := db.carts[userId := cart.(items := [])];  // RemoveRange, SaveChangesAsync
    r := Ok((id, order));
  }

  /** GetOrderByIdAsync(id, userId): the order with that id, when it belongs
      to that user. */
  function OrderOf(orders: map<int, Order>, id: int, userId: int): (r: Option<Order>)
    ensures r.Some? <==> id in orders && orders[id].userId == userId
    ensures r.Some? ==> r.value == orders[id]
  {
    if id in orders && orders[id].userId == userId then Some(orders[id]) else None
  }

  /** GET {id}: a missing or unparsable claim is Unauthorized; another
      user's order is as absent as a missing one. */
  method GetOrder(db: Store, claim: Claim, id: int) returns (r: Response<Order>)
    ensures !claim.Numeric? ==> r == Unauthorized
    ensures claim.Numeric? ==>
      match OrderOf(db.orders, id, claim.id)
      case Some(o) => r == Ok(o)
      case None => r == NotFound
    ensures r.Ok? ==> id in db.orders && r.value == db.orders[id] && claim == Numeric(r.value.userId)
  {
    if !claim.Numeric? {
      return Unauthorized;
    }
    var order := OrderOf(db.orders, id, claim.id);
    if order.None? {
      return NotFound;
    }
    r := Ok(order.value);
  }

  /** The payments left when the order `orderId` is deleted (the foreign key
      Payment.OrderId cascades), in their original order. */
  function PaymentsNotFor(payments: seq<Payment>, orderId: int): (r: seq<Payment>)
    ensures forall p :: p in r <==> p in payments && p.orderId != orderId
    ensures |r| <= |payments|
    ensures (forall k :: 0 <= k < |payments| ==> payments[k].orderId != orderId) ==> r == payments
    decreases |payments|
  {
    if payments == [] then []
    else
      var rest := PaymentsNotFor(payments[1..], orderId);
      if payments[0].orderId == orderId then rest else [payments[0]] + rest
  }

  /** DELETE {id}: cancels the caller's order whatever its status. The claim
      is read with int.Parse, so a missing or unparsable one ends in the
      catch block's 500. */
  method DeleteOrder(db: Store, claim: Claim, id: int) returns (r: Response<()>)
    requires db.Valid()
    modifies db`orders, db`payments
    ensures db.Valid()
    ensures !claim.Numeric? ==> r == ServerError && unchanged(db)
    ensures claim.Numeric? && OrderOf(old(db.orders), id, claim.id).None? ==> r == NotFound && unchanged(db)
    ensures claim.Numeric? && OrderOf(old(db.orders), id, claim.id).Some? ==>
      && r == Ok(())
      && db.orders == old(db.orders) - {id}
      && db.payments == PaymentsNotFor(old(db.payments), id)
  {
    if !claim.Numeric? {
      return ServerError;
    }
    var order := OrderOf(db.orders, id, claim.id);
    if order.None? {
      return NotFound;
    }
    db.orders := db.orders - {id};  // DeleteOrderAsync; order lines go with it
    db.payments := PaymentsNotFor(db.payments, id);
    r := Ok(());
  }

  /** GetOrdersByUserIdAsync: the user's orders by id. */
  function OrdersOf(orders: map<int, Order>, userId: int): (r: map<int, Order>)
    ensures forall id :: id in r <==> id in orders && orders[id].userId == userId
    ensures forall id :: id in r ==> r[id] == orders[id]
  {
    map id | id in orders && orders[id].userId == userId :: orders[id]
  }

  /** A user has no orders exactly when no order carries that user's id. */
  lemma NoOrdersOf(orders: map<int, Order>, userId: int)
    ensures OrdersOf(orders, userId) == map[] <==> forall id :: id in orders ==> orders[id].userId != userId
  {
    var r := OrdersOf(orders, userId);
    if forall id :: id in orders ==> orders[id].userId != userId {
      assert r.Keys == {};
    } else {
      var id :| id in orders && orders[id].userId == userId;
      assert id in r;
    }
  }

  /** GET user-orders: NotFound rather than an empty list. */
  method GetOrdersByUserId(db: Store, claim: Claim) returns (r: Response<map<int, Order>>)
    ensures !claim.Numeric? ==> r == Unauthorized
    ensures claim.Numeric? ==>
      (r.NotFound? <==> forall id :: id in db.orders ==> db.orders[id].userId != claim.id)
    ensures claim.Numeric? && r.Ok? ==>
      && r.value == OrdersOf(db.orders, claim.id)
      && r.value != map[]
      && forall id :: id in r.value <==> OrderOf(db.orders, id, claim.id).Some?
    ensures r.Ok? || r.NotFound? || r.Unauthorized?
  {
    if !claim.Numeric? {
      return Unauthorized;
    }
    var orders := OrdersOf(db.orders, claim.id);
    NoOrdersOf(db.orders, claim.id);
    if orders == map[] {
      return NotFound;
    }
    r := Ok(orders);
  }
}
