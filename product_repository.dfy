/** ProductRepository and the category lookups it relies on: the product
    filters, the merchant's order summary and the hard delete. */
module ProductRepository {
  import opened Wrappers
  import opened Text
  import opened Model
  import opened Data

  /** GetProductsByUserIdAsync: the products the merchant owns. */
  function ProductsByUserId(products: map<int, Product>, userId: int): (r: map<int, Product>)
    ensures forall id :: id in r <==> id in products && products[id].userId == userId
    ensures forall id :: id in r ==> r[id] == products[id]
  {
    map id | id in products && products[id].userId == userId :: products[id]
  }

  /** GetProductsByCategoryAsync(int): the products of one category. */
  function ProductsByCategoryId(products: map<int, Product>, categoryId: int): (r: map<int, Product>)
    ensures forall id :: id in r <==> id in products && products[id].categoryId == categoryId
    ensures forall id :: id in r ==> r[id] == products[id]
  {
    map id | id in products && products[id].categoryId == categoryId :: products[id]
  }

  /** CategoryRepository.GetCategoryByIdAsync: the first category with the id. */
  function CategoryById(categories: seq<Category>, id: int): (r: Option<Category>)
    ensures r.Some? ==> r.value in categories && r.value.categoryId == id
    ensures r.None? <==> forall k :: 0 <= k < |categories| ==> categories[k].categoryId != id
    decreases |categories|
  {
    if categories == [] then None
    else if categories[0].categoryId == id then Some(categories[0])
    else CategoryById(categories[1..], id)
  }

  /** CategoryRepository.GetCategoryByNameAsync: the first category whose
      name equals `name` once both are lower-cased. */
  function CategoryByName(categories: seq<Category>, name: string): (r: Option<Category>)
    ensures r.Some? ==> r.value in categories && EqualsIgnoreCase(r.value.categoryName, name)
    ensures r.None? <==> forall k :: 0 <= k < |categories| ==> !EqualsIgnoreCase(categories[k].categoryName, name)
    decreases |categories|
  {
    if categories == [] then None
    else if EqualsIgnoreCase(categories[0].categoryName, name) then Some(categories[0])
    else CategoryByName(categories[1..], name)
  }

  /** Whether a product's category (the row its CategoryId refers to) has
      the given name, ignoring case. */
  predicate InCategoryNamed(categories: seq<Category>, product: Product, name: string)
  {
    match CategoryById(categories, product.categoryId)
    case Some(c) => EqualsIgnoreCase(c.categoryName, name)
    case None => false
  }

  /** GetProductsByCategoryAsync(string): the products whose category name
      matches, ignoring case. */
  function ProductsByCategoryName(products: map<int, Product>, categories: seq<Category>, name: string)
    : (r: map<int, Product>)
    ensures forall id :: id in r <==> id in products && InCategoryNamed(categories, products[id], name)
    ensures forall id :: id in r ==> r[id] == products[id]
  {
    map id | id in products && InCategoryNamed(categories, products[id], name) :: products[id]
  }

  /** With the category ids distinct, as the primary key makes them,
      filtering by name is filtering by the id of the category of that name. */
  lemma ByNameIsByIdOfName(products: map<int, Product>, categories: seq<Category>, name: string)
    requires forall i, j :: 0 <= i < j < |categories| ==> categories[i].categoryId != categories[j].categoryId
    requires forall i, j :: 0 <= i < j < |categories| ==>
      EqualsIgnoreCase(categories[i].categoryName, name) ==> !EqualsIgnoreCase(categories[j].categoryName, name)
    ensures match CategoryByName(categories, name)
      case None => ProductsByCategoryName(products, categories, name) == map[]
      case Some(c) => ProductsByCategoryName(products, categories, name) == ProductsByCategoryId(products, c.categoryId)
  {
    var r := ProductsByCategoryName(products, categories, name);
    match CategoryByName(categories, name)
    case None =>
      forall id | id in products
        ensures !InCategoryNamed(categories, products[id], name)
      {
        CategoryByIdIndex(categories, products[id].categoryId);
      }
      assert r.Keys == {};
    case Some(c) =>
      forall id | id in products
        ensures InCategoryNamed(categories, products[id], name) <==> products[id].categoryId == c.categoryId
      {
        CategoryByIdIndex(categories, products[id].categoryId);
      }
      assert r == ProductsByCategoryId(products, c.categoryId);
  }

  /** The name lookup ignores case over the seeded categories. */
  lemma SeededCategoryByName()
    ensures CategoryByName(SeededCategories, "BOOKS") == Some(Category(4, "Books"))
  {
    assert ToLower("BOOKS") == "books";
    assert ToLower("Books") == "books";
    assert SeededCategories[3..][0] == Category(4, "Books");
  }

  /** CategoryById finds the category at some index. */
  lemma CategoryByIdIndex(categories: seq<Category>, id: int)
    ensures match CategoryById(categories, id)
      case Some(c) => exists k :: 0 <= k < |categories| && categories[k] == c
      case None => true
    decreases |categories|
  {
    if categories != [] && categories[0].categoryId != id {
      CategoryByIdIndex(categories[1..], id);
    }
  }

  /** Whether one of the order's lines is for one of the given products. */
  predicate HasProductOf(order: Order, productIds: set<int>)
  {
    exists k :: 0 <= k < |order.items| && order.items[k].productId in productIds
  }

  /** The ids of the merchant's products. */
  function MerchantProductIds(products: map<int, Product>, userId: int): (r: set<int>)
    ensures forall id :: id in r <==> id in products && products[id].userId == userId
  {
    set id | id in products && products[id].userId == userId
  }

  /** The orders that hold at least one line for one of the merchant's products. */
  function CustomerOrders(products: map<int, Product>, orders: map<int, Order>, userId: int): (r: set<int>)
    ensures r <= orders.Keys
    ensures forall id :: id in r <==> id in orders && HasProductOf(orders[id], MerchantProductIds(products, userId))
  {
    var ids := MerchantProductIds(products, userId);
    set id | id in orders && HasProductOf(orders[id], ids)
  }

  /** Those of the given orders that have the status. */
  function WithStatus(orders: map<int, Order>, ids: set<int>, status: string): (r: set<int>)
    requires ids <= orders.Keys
    ensures r <= ids
    ensures forall id :: id in r <==> id in ids && orders[id].status == status
  {
    set id | id in ids && orders[id].status == status
  }

  /** The GroupBy over Status then ToDictionary: one entry per status that
      occurs among the orders, holding the number of those orders. */
  function StatusCounts(orders: map<int, Order>, ids: set<int>): (r: map<string, int>)
    requires ids <= orders.Keys
    ensures forall s :: s in r <==> exists id :: id in ids && orders[id].status == s
  {
    map s | s in (set id | id in ids :: orders[id].status) :: |WithStatus(orders, ids, s)|
  }

  /** The count a status gets in the summary: its entry if one exists,
      otherwise 0 (the ContainsKey test). */
  function CountOf(counts: map<string, int>, status: string): int
  {
    if status in counts then counts[status] else 0
  }

  /** The ContainsKey fallback agrees with counting: a status's count is the
      number of orders with that status, 0 when there are none. */
  lemma CountOfIsCardinality(orders: map<int, Order>, ids: set<int>, status: string)
    requires ids <= orders.Keys
    ensures CountOf(StatusCounts(orders, ids), status) == |WithStatus(orders, ids, status)|
  {
    var w := WithStatus(orders, ids, status);
    if status !in StatusCounts(orders, ids) {
      assert forall id :: id !in w;
      assert w == {};
    }
  }

  /** GetOrderSummaryAsync: how many orders touch the merchant's products and
      how many of those are pending or paid. */
  function OrderSummary(products: map<int, Product>, orders: map<int, Order>, userId: int): (r: map<string, int>)
    ensures r.Keys == {"TotalOrders", "PendingOrders", "SuccessfulOrders"}
    ensures r["TotalOrders"] == |CustomerOrders(products, orders, userId)|
    ensures r["PendingOrders"] == |WithStatus(orders, CustomerOrders(products, orders, userId), PendingPayment)|
    ensures r["SuccessfulOrders"] == |WithStatus(orders, CustomerOrders(products, orders, userId), Paid)|
  {
    var customerOrders := CustomerOrders(products, orders, userId);
    var statusCounts := StatusCounts(orders, customerOrders);
    CountOfIsCardinality(orders, customerOrders, PendingPayment);
    CountOfIsCardinality(orders, customerOrders, Paid);
    map["TotalOrders" := |customerOrders|,
        "PendingOrders" := CountOf(statusCounts, PendingPayment),
        "SuccessfulOrders" := CountOf(statusCounts, Paid)]
  }

  /** Pending and paid orders are disjoint parts of the merchant's orders. */
  lemma SummaryCountsBounded(products: map<int, Product>, orders: map<int, Order>, userId: int)
    ensures var r := OrderSummary(products, orders, userId);
      r["PendingOrders"] + r["SuccessfulOrders"] <= r["TotalOrders"]
  {
    var all := CustomerOrders(products, orders, userId);
    var pending := WithStatus(orders, all, PendingPayment);
    var paid := WithStatus(orders, all, Paid);
    assert pending * paid == {};
    assert |pending + paid| == |pending| + |paid|;
    SubsetCardinality(pending + paid, all);
  }

  /** A subset has no more elements than the set. */
  lemma SubsetCardinality(a: set<int>, b: set<int>)
    requires a <= b
    ensures |a| <= |b|
  {
    assert a * b == a;
    assert |b - a| + |a| == |b|;
  }

  /** DeleteProductAsync: removes the product when it exists, and does nothing
      otherwise. A product that a cart line or an order line still refers to
      cannot be removed (those foreign keys restrict the delete), so the save
      throws and nothing changes. */
  method DeleteProductAsync(db: Store, id: int) returns (r: Response<()>)
    requires db.Valid()
    modifies db`products
    ensures db.Valid()
    ensures id !in old(db.products) ==> r == Ok(()) && db.products == old(db.products)
    ensures id in old(db.products) && Referenced(db.carts, db.orders, id) ==>
      r == ServerError && db.products == old(db.products)
    ensures id in old(db.products) && !Referenced(db.carts, db.orders, id) ==>
      r == Ok(()) && db.products == old(db.products) - {id}
    ensures id !in db.products || r.ServerError?
  {
    if id !in db.products {
      return Ok(());
    }
    if Referenced(db.carts, db.orders, id) {
      return ServerError;
    }
    db.products := db.products - {id};
    r := Ok(());
  }

  /** Whether a cart line or an order line refers to the product. */
  predicate Referenced(carts: map<int, Cart>, orders: map<int, Order>, productId: int)
  {
    || (exists c :: c in carts && exists k :: 0 <= k < |carts[c].items| && carts[c].items[k].productId == productId)
    || (exists o :: o in orders && HasProductOf(orders[o], {productId}))
  }
}
