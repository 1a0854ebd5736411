/** ProductController: the merchant's catalogue. Actions that read the claim
    with int.Parse answer 500 for an unparsable one, from their catch block. */
module ProductController {
  import opened Wrappers
  import opened Model
  import opened Requests
  import opened Data
  import opened ProductRepository

  /** GET all: the caller's own products, NotFound when there are none. */
  method GetAllProducts(db: Store, claim: Claim) returns (r: Response<map<int, Product>>)
    ensures claim.Absent? ==> r == Unauthorized
    ensures claim.NonNumeric? ==> r == ServerError
    ensures claim.Numeric? ==>
      var mine := ProductsByUserId(db.products, claim.id);
      if mine == map[] then r == NotFound else r == Ok(mine)
    ensures r.Ok? ==> r.value != map[] && forall id :: id in r.value ==>
      id in db.products && r.value[id] == db.products[id] && r.value[id].userId == claim.id
  {
    if claim.Absent? {
      return Unauthorized;
    }
    if claim.NonNumeric? {
      return ServerError;
    }
    var products := ProductsByUserId(db.products, claim.id);
    if products == map[] {
      return NotFound;
    }
    r := Ok(products);
  }

  /** GET category/{categoryName}: anyone may ask. */
  method GetProductsByCategory(db: Store, categoryName: string) returns (r: Response<map<int, Product>>)
    ensures CategoryByName(db.categories, categoryName).None? ==> r == NotFound
    ensures CategoryByName(db.categories, categoryName).Some? ==>
      var listed := ProductsByCategoryId(db.products, CategoryByName(db.categories, categoryName).value.categoryId);
      if listed == map[] then r == NotFound else r == Ok(listed)
    ensures r.Ok? || r.NotFound?
  {
    var category := CategoryByName(db.categories, categoryName);
    if category.None? {
      return NotFound;
    }
    var products := ProductsByCategoryId(db.products, category.value.categoryId);
    if products == map[] {
      return NotFound;
    }
    r := Ok(products);
  }

  /** GET categories: anyone may ask; the whole category table, in table
      order. */
  method GetCategories(db: Store) returns (r: Response<seq<Category>>)
    ensures r.Ok? && |r.value| == |db.categories|
    ensures forall k :: 0 <= k < |r.value| ==> r.value[k] == db.categories[k]
  {
    r := Ok(db.categories);
  }

  /** POST: a new product owned by the caller. Answers with its id. */
  method AddProduct(db: Store, claim: Claim, name: string, price: int, stockQuantity: int, categoryId: int)
    returns (r: Response<int>)
    requires db.Valid()
    modifies db`products, db`nextProductId
    ensures db.Valid()
    ensures !ValidProductRequest(name) ==> r == BadRequest && unchanged(db)
    ensures ValidProductRequest(name) && CategoryById(db.categories, categoryId).None? ==>
      r == BadRequest && unchanged(db)
    ensures ValidProductRequest(name) && CategoryById(db.categories, categoryId).Some? ==>
      match claim
      case Absent => r == Unauthorized && unchanged(db)
      case NonNumeric => r == ServerError && unchanged(db)
      case Numeric(owner) =>
        // the foreign key Product.UserId makes saving for an unknown user throw
        if owner !in db.users then r == ServerError && unchanged(db)
        else
          && r == Ok(old(db.nextProductId))
          && old(db.nextProductId) !in old(db.products)
          && db.products == old(db.products)[old(db.nextProductId) := Product(name, price, stockQuantity, categoryId, owner)]
          && db.nextProductId == old(db.nextProductId) + 1
  {
    if !ValidProductRequest(name) {
      return BadRequest;
    }
    var category := CategoryById(db.categories, categoryId);
    if category.None? {
      return BadRequest;
    }
    if claim.Absent? {
      return Unauthorized;
    }
    if claim.NonNumeric? {
      return ServerError;
    }
    if claim.id !in db.users {
      return ServerError;
    }
    var id := db.nextProductId;
    db.products := db.products[id := Product(name, price, stockQuantity, categoryId, claim.id)];  // AddProductAsync saves
    db.nextProductId := id + 1;
    r := Ok(id);
  }

  /** The guards UpdateProduct and DeleteProduct share: who is calling, does
      the product exist, and does the caller own it. */
  function OwnedProduct(products: map<int, Product>, claim: Claim, id: int): (r: Response<Product>)
    ensures r.Ok? <==> claim.Numeric? && id in products && products[id].userId == claim.id
    ensures r.Ok? ==> r.value == products[id]
    ensures claim.Absent? ==> r == Unauthorized
    ensures claim.NonNumeric? ==> r == ServerError
    ensures claim.Numeric? && id !in products ==> r == NotFound
    ensures claim.Numeric? && id in products && products[id].userId != claim.id ==> r == Forbidden
  {
    match claim
    case Absent => Unauthorized
    case NonNumeric => ServerError
    case Numeric(caller) =>
      if id !in products then NotFound
      else if products[id].userId != caller then Forbidden
      else Ok(products[id])
  }

  /** PUT {id}: replaces name, price, stock and category of the caller's
      product; the owner is kept (the mapping ignores UserId). */
  method UpdateProduct(db: Store, claim: Claim, id: int, name: string, price: int, stockQuantity: int, categoryId: int)
    returns (r: Response<()>)
    requires db.Valid()
    modifies db`products
    ensures db.Valid()
    ensures !ValidProductRequest(name) ==> r == BadRequest && unchanged(db)
    ensures ValidProductRequest(name) && !OwnedProduct(old(db.products), claim, id).Ok? ==>
      r == OwnedProduct(old(db.products), claim, id).Failure() && unchanged(db)
    ensures ValidProductRequest(name) && OwnedProduct(old(db.products), claim, id).Ok? ==>
      if CategoryById(db.categories, categoryId).None? then r == BadRequest && unchanged(db)
      else
        var old_ := old(db.products)[id];
        && r == Ok(())
        && db.products == old(db.products)[id := Product(name, price, stockQuantity, categoryId, old_.userId)]
    ensures id in old(db.products) ==> id in db.products && db.products[id].userId == old(db.products)[id].userId
    ensures forall p :: p in old(db.products) && p != id ==> p in db.products && db.products[p] == old(db.products)[p]
  {
    if !ValidProductRequest(name) {
      return BadRequest;
    }
    var owned := OwnedProduct(db.products, claim, id);
    if !owned.Ok? {
      return owned.Failure();
    }
    var category := CategoryById(db.categories, categoryId);
    if category.None? {
      return BadRequest;
    }
    var product := owned.value.(name := name, price := price, stockQuantity := stockQuantity, categoryId := categoryId);
    SameKeys(db.products, db.products[id := product], db.nextProductId);
    db.products := db.products[id := product];  // UpdateProductAsync saves
    r := Ok(());
  }

  /** DELETE {id}: a soft delete, setting the stock of the caller's product
      to 0 and leaving the row and every other field. */
  method DeleteProduct(db: Store, claim: Claim, id: int) returns (r: Response<()>)
    requires db.Valid()
    modifies db`products
    ensures db.Valid()
    ensures !OwnedProduct(old(db.products), claim, id).Ok? ==>
      r == OwnedProduct(old(db.products), claim, id).Failure() && unchanged(db)
    ensures OwnedProduct(old(db.products), claim, id).Ok? ==>
      && r == Ok(())
      && db.products == old(db.products)[id := old(db.products)[id].(stockQuantity := 0)]
    ensures db.products.Keys == old(db.products).Keys
  {
    var owned := OwnedProduct(db.products, claim, id);
    if !owned.Ok? {
      return owned.Failure();
    }
    var product := owned.value.(stockQuantity := 0);
    SameKeys(db.products, db.products[id := product], db.nextProductId);
    db.products := db.products[id := product];  // UpdateProductAsync saves
    r := Ok(());
  }

  /** GET summary: open to any caller with a numeric claim; the answer always
      holds the three counts, so the action's NotFound for an empty summary
      cannot happen. */
  method GetOrderSummary(db: Store, claim: Claim) returns (r: Response<map<string, int>>)
    ensures claim.Absent? ==> r == Unauthorized
    ensures claim.NonNumeric? ==> r == BadRequest
    ensures claim.Numeric? ==> r == Ok(OrderSummary(db.products, db.orders, claim.id))
    ensures r.Ok? ==> r.value.Keys == {"TotalOrders", "PendingOrders", "SuccessfulOrders"}
  {
    if claim.Absent? {
      return Unauthorized;
    }
    if claim.NonNumeric? {
      return BadRequest;
    }
    var summary := OrderSummary(db.products, db.orders, claim.id);
    r := Ok(summary);
  }
}
