/** CartController: the customer's cart, one per user. */
module CartController {
  import opened Wrappers
  import opened Model
  import opened Requests
  import opened Data
  import opened CartLines

  /** GetLoggedInUserId: a missing claim reads as user 0, which every action
      answers with Unauthorized; `int.Parse` throws on an unparsable claim,
      and the action's catch block answers 500 (None here). */
  function LoggedInUserId(claim: Claim): (r: Option<int>)
    ensures r == Some(0) <==> claim.Absent? || claim == Numeric(0)
    ensures r.None? <==> claim.NonNumeric?
    ensures claim.Numeric? ==> r == Some(claim.id)
  {
    match claim
    case Absent => Some(0)
    case Numeric(id) => Some(id)
    case NonNumeric => None
  }

  /** A caller the cart actions reject as anonymous. */
  predicate Anonymous(claim: Claim)
  {
    LoggedInUserId(claim) == Some(0)
  }

  /** The cart table once AddToCart has created the caller's missing cart. */
  function WithCart(carts: map<int, Cart>, userId: int): (r: map<int, Cart>)
    ensures userId in r && r[userId] == (if userId in carts then carts[userId] else Cart(0, []))
    ensures forall c :: c in carts ==> c in r && r[c] == carts[c]
    ensures r.Keys == carts.Keys + {userId}
  {
    if userId in carts then carts else carts[userId := Cart(0, [])]
  }

  /** GetCartDetails' answer: the lines and a total recomputed from them. */
  datatype CartView = CartView(items: seq<CartItem>, totalPrice: int)

  /** POST add-to-cart. */
  method AddToCart(db: Store, claim: Claim, productId: int, quantity: int) returns (r: Response<int>)
    requires db.Valid()
    modifies db`carts
    ensures db.Valid()
    ensures !ValidCartQuantity(quantity) ==> r == BadRequest && db.carts == old(db.carts)
    ensures ValidCartQuantity(quantity) && claim.NonNumeric? ==> r == ServerError && db.carts == old(db.carts)
    ensures ValidCartQuantity(quantity) && Anonymous(claim) ==> r == Unauthorized && db.carts == old(db.carts)
    ensures ValidCartQuantity(quantity) && claim.Numeric? && claim.id != 0 ==>
      var uid := claim.id;
      if uid !in old(db.carts) && uid !in db.users then
        // inserting the cart violates the foreign key to Users
        r == ServerError && db.carts == old(db.carts)
      else
        // the new empty cart is saved before the product is looked up
        var carts := WithCart(old(db.carts), uid);
        var items := carts[uid].items;
        if productId !in db.products then
          r == NotFound && db.carts == carts
        else if !FitsStock(items, productId, quantity, db.products[productId].stockQuantity) then
          r == BadRequest && db.carts == carts
        else
          var added := AddedLines(items, productId, quantity, db.products[productId].price);
          r == Ok(CartTotal(added)) && db.carts == carts[uid := Cart(CartTotal(added), added)]
    // On success the stored and returned total is the sum over the saved lines.
    ensures r.Ok? ==>
      && claim.Numeric? && claim.id in db.carts
      && r.value == db.carts[claim.id].totalPrice == CartTotal(db.carts[claim.id].items)
  {
    if !ValidCartQuantity(quantity) {
      return BadRequest;
    }
    var caller := LoggedInUserId(claim);
    if caller.None? {
      return ServerError;
    }
    var userId := caller.value;
    if userId == 0 {
      return Unauthorized;
    }
    var cart: Cart;
    if userId in db.carts {
      cart := db.carts[userId];
    } else {
      if userId !in db.users {
        return ServerError;
      }
      cart := Cart(0, []);
      PutCart(db.carts, db.users, userId, cart);
      db.carts := db.carts[userId := cart];  // AddCartAsync saves
    }
    assert db.carts == WithCart(old(db.carts), userId) && cart == db.carts[userId];
    if productId !in db.products {
      return NotFound;
    }
    var product := db.products[productId];
    if quantity > product.stockQuantity {
      return BadRequest;
    }
    var items := cart.items;
    var existing := FindLine(items, productId);
    if existing.Some? {
      var i := existing.value;
      var merged := items[i].quantity + quantity;
      if merged > product.stockQuantity {
        return BadRequest;  // the tracked change is never saved
      }
      items := items[i := items[i].(quantity := merged)];
    } else {
      items := items + [CartItem(productId, quantity, product.price, false)];
    }
    assert items == AddedLines(cart.items, productId, quantity, product.price);
    AddedLinesInvariant(cart.items, productId, quantity, product.price, product.stockQuantity);
    PutCartResolves(db.carts, db.products, userId, Cart(CartTotal(items), items));
    PutCart(db.carts, db.users, userId, Cart(CartTotal(items), items));
    var total := CartTotal(items);
    db.carts := db.carts[userId := Cart(total, items)];  // SaveAsync
    r := Ok(total);
  }

  /** GET details. Reads only: the recomputed total is not saved. */
  method GetCartDetails(db: Store, claim: Claim) returns (r: Response<CartView>)
    ensures claim.NonNumeric? ==> r == ServerError
    ensures Anonymous(claim) ==> r == Unauthorized
    ensures claim.Numeric? && claim.id != 0 ==> (r.NotFound? <==> claim.id !in db.carts)
    ensures r.Ok? ==>
      && claim.Numeric? && claim.id in db.carts
      && r.value.items == db.carts[claim.id].items && r.value.totalPrice == CartTotal(r.value.items)
  {
    var caller := LoggedInUserId(claim);
    if caller.None? {
      return ServerError;
    }
    var userId := caller.value;
    if userId == 0 {
      return Unauthorized;
    }
    if userId !in db.carts {
      return NotFound;
    }
    var cart := db.carts[userId];
    r := Ok(CartView(cart.items, CartTotal(cart.items)));
  }

  /** DELETE remove-from-cart/{productId}: deletes the product's line and
      leaves the stored TotalPrice as it was. */
  method RemoveFromCart(db: Store, claim: Claim, productId: int) returns (r: Response<()>)
    requires db.Valid()
    modifies db`carts
    ensures db.Valid()
    ensures claim.NonNumeric? ==> r == ServerError && db.carts == old(db.carts)
    ensures Anonymous(claim) ==> r == Unauthorized && db.carts == old(db.carts)
    ensures claim.Numeric? && claim.id != 0 ==>
      var uid := claim.id;
      if uid !in old(db.carts) then r == NotFound && db.carts == old(db.carts)
      else
        var cart := old(db.carts)[uid];
        match FindLine(cart.items, productId)
        case None => r == NotFound && db.carts == old(db.carts)
        case Some(i) =>
          && r == Ok(())
          && db.carts == old(db.carts)[uid := Cart(cart.totalPrice, RemoveAt(cart.items, i))]
    ensures r.Ok? ==>
      && claim.Numeric? && claim.id in db.carts && claim.id in old(db.carts)
      && FindLine(db.carts[claim.id].items, productId).None?
      && |db.carts[claim.id].items| == |old(db.carts)[claim.id].items| - 1
  {
    var caller := LoggedInUserId(claim);
    if caller.None? {
      return ServerError;
    }
    var userId := caller.value;
    if userId == 0 {
      return Unauthorized;
    }
    if userId !in db.carts {
      return NotFound;
    }
    var cart := db.carts[userId];
    var line := FindLine(cart.items, productId);
    if line.None? {
      return NotFound;
    }
    RemoveAtInvariant(cart.items, line.value);
    db.carts := db.carts[userId := cart.(items := RemoveAt(cart.items, line.value))];  // RemoveCartItemAsync saves
    r := Ok(());
  }

  /** PUT update-quantity: overwrites the line's quantity (not cumulative). */
  method UpdateQuantity(db: Store, claim: Claim, productId: int, quantity: int) returns (r: Response<()>)
    requires db.Valid()
    modifies db`carts
    ensures db.Valid()
    ensures !ValidCartQuantity(quantity) ==> r == BadRequest && db.carts == old(db.carts)
    ensures ValidCartQuantity(quantity) && claim.NonNumeric? ==> r == ServerError && db.carts == old(db.carts)
    ensures ValidCartQuantity(quantity) && Anonymous(claim) ==> r == Unauthorized && db.carts == old(db.carts)
    ensures ValidCartQuantity(quantity) && claim.Numeric? && claim.id != 0 ==>
      var uid := claim.id;
      if uid !in old(db.carts) then r == NotFound && db.carts == old(db.carts)
      else
        var items := old(db.carts)[uid].items;
        match FindLine(items, productId)
        case None => r == NotFound && db.carts == old(db.carts)
        case Some(i) =>
          if productId !in db.products then r == NotFound && db.carts == old(db.carts)
          else if quantity > db.products[productId].stockQuantity then r == BadRequest && db.carts == old(db.carts)
          else
            var updated := items[i := items[i].(quantity := quantity)];
            r == Ok(()) && db.carts == old(db.carts)[uid := Cart(CartTotal(updated), updated)]
    ensures r.Ok? ==>
      && claim.Numeric? && claim.id in db.carts
      && db.carts[claim.id].totalPrice == CartTotal(db.carts[claim.id].items)
  {
    if !ValidCartQuantity(quantity) {
      return BadRequest;
    }
    var caller := LoggedInUserId(claim);
    if caller.None? {
      return ServerError;
    }
    var userId := caller.value;
    if userId == 0 {
      return Unauthorized;
    }
    if userId !in db.carts {
      return NotFound;
    }
    var cart := db.carts[userId];
    var line := FindLine(cart.items, productId);
    if line.None? {
      return NotFound;
    }
    if productId !in db.products {
      return NotFound;
    }
    var product := db.products[productId];
    if quantity > product.stockQuantity {
      return BadRequest;
    }
    var i := line.value;
    var items := cart.items[i := cart.items[i].(quantity := quantity)];
    assert forall j :: 0 <= j < |items| ==> items[j].productId == cart.items[j].productId;
    db.carts := db.carts[userId := Cart(CartTotal(items), items)];  // SaveAsync
    r := Ok(());
  }

  /** GET total: the sum at the products' current prices, unlike
      GetCartDetails, which uses the captured line prices. */
  method GetTotalAmount(db: Store, claim: Claim) returns (r: Response<int>)
    requires db.Valid()
    ensures claim.NonNumeric? ==> r == ServerError
    ensures Anonymous(claim) ==> r == Unauthorized
    ensures claim.Numeric? && claim.id != 0 ==>
      (r.NotFound? <==> claim.id !in db.carts || |db.carts[claim.id].items| == 0)
    ensures claim.Numeric? && claim.id in db.carts && |db.carts[claim.id].items| > 0 && claim.id != 0 ==>
      match LiveTotal(db.carts[claim.id].items, db.products)
      case Some(t) => r == Ok(t)
      case None => r == ServerError
    // every line's product exists, so the null dereference cannot happen
    ensures claim.Numeric? && claim.id != 0 ==> !r.ServerError?
  {
    var caller := LoggedInUserId(claim);
    if caller.None? {
      return ServerError;
    }
    var userId := caller.value;
    if userId == 0 {
      return Unauthorized;
    }
    if userId !in db.carts || |db.carts[userId].items| == 0 {
      return NotFound;
    }
    var total := LiveTotal(db.carts[userId].items, db.products);
    if total.None? {
      return ServerError;  // a line whose product is gone: null dereference
    }
    r := Ok(total.value);
  }
}
