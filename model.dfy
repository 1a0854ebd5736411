/** The entities of the store (the classes under EShopCart/Models) as values.

    Identifiers that the database assigns are the keys of the maps that hold
    these records (see Data.Store), so a record does not repeat its own id.
    Money is an integer number of minor units (cents): the columns are
    SQL Server decimal(18,2), so every stored amount has two decimals. */
module Model {

  /** Minor units per currency unit; the wallet top-up takes whole units. */
  const CentsPerUnit: int := 100

  /** int.MaxValue: request quantities are C# `int`s. */
  const Int32Max: int := 0x7FFF_FFFF

  /** User.Email carries [MaxLength(100)], so its column is nvarchar(100),
      100 UTF-16 code units wide. */
  const EmailColumnLength: nat := 100

  /** Order.Status values written by the controllers. */
  const PendingPayment: string := "Pending Payment"
  const Paid: string := "Paid"

  /** Payment.Status; the only value the code ever writes. */
  const Completed: string := "Completed"

  datatype User = User(
    username: string,
    email: string,
    passwordHash: string,
    role: string,
    walletBalance: int)

  /** `userId` is the owning merchant. Name and image URL are kept out of the
      arithmetic; image storage is not modelled. */
  datatype Product = Product(
    name: string,
    price: int,
    stockQuantity: int,
    categoryId: int,
    userId: int)

  datatype Category = Category(categoryId: int, categoryName: string)

  /** A cart line: `price` is the product price captured when the line was
      created. */
  datatype CartItem = CartItem(
    productId: int,
    quantity: int,
    price: int,
    isOrdered: bool)

  /** The cart of one customer (the map key is its CustomerId). `totalPrice` is
      the stored column, which some operations leave stale. */
  datatype Cart = Cart(totalPrice: int, items: seq<CartItem>)

  datatype OrderItem = OrderItem(
    productId: int,
    quantity: int,
    price: int,
    totalPrice: int)

  /** OrderDate is a clock reading and is not modelled. */
  datatype Order = Order(
    userId: int,
    status: string,
    shippingAddress: string,
    pinCode: string,
    items: seq<OrderItem>,
    totalAmount: int)

  /** PaymentDate is a clock reading and is not modelled. */
  datatype Payment = Payment(
    orderId: int,
    userId: int,
    amount: int,
    paymentMode: string,
    status: string)

  /** The categories seeded by ApplicationDbContext.OnModelCreating. */
  const SeededCategories: seq<Category> := [
    Category(1, "Electronics"),
    Category(2, "Fashion"),
    Category(3, "Home Appliances"),
    Category(4, "Books"),
    Category(5, "Toys"),
    Category(6, "Beauty & Personal Care"),
    Category(7, "Sports"),
    Category(8, "Groceries"),
    Category(9, "Automotive"),
    Category(10, "Health & Wellness")
  ]

  /** Quantity x Price of a cart line. */
  function LineTotal(item: CartItem): int
  {
    item.quantity * item.price
  }

  /** `CartItems.Sum(ci => ci.Quantity * ci.Price)`: the total at captured
      prices, summed from the first line to the last. */
  function CartTotal(items: seq<CartItem>): int
    decreases |items|
  {
    if items == [] then 0 else CartTotal(items[..|items| - 1]) + LineTotal(items[|items| - 1])
  }

  /** The sum of the order lines' TotalPrice. */
  function OrderTotal(items: seq<OrderItem>): int
    decreases |items|
  {
    if items == [] then 0 else OrderTotal(items[..|items| - 1]) + items[|items| - 1].totalPrice
  }

  /** No two lines of a cart are for the same product. */
  predicate DistinctProducts(items: seq<CartItem>)
  {
    forall i, j :: 0 <= i < j < |items| ==> items[i].productId != items[j].productId
  }
}
