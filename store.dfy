/** The committed contents of the relational store (ApplicationDbContext). */
module Data {
  import opened Model

  /** Identities handed out so far lie strictly below the next one. */
  predicate KeysBelow<T>(m: map<int, T>, next: int)
  {
    0 < next && forall id :: id in m ==> 0 < id < next
  }

  /** The invariants of the Users table: WalletBalance is never negative
      (User.cs:26) and usernames are unique, as registration refuses an
      existing one. */
  predicate UsersValid(users: map<int, User>)
  {
    && (forall id :: id in users ==> users[id].walletBalance >= 0)
    && (forall a, b :: a in users && b in users && a != b ==> users[a].username != users[b].username)
  }

  /** The invariants of the Carts table: a cart belongs to an existing user
      (foreign key Cart.CustomerId) and adding merges lines of one product. */
  predicate CartsValid(carts: map<int, Cart>, users: map<int, User>)
  {
    forall c :: c in carts ==> c in users && DistinctProducts(carts[c].items)
  }

  /** Every cart line refers to an existing product: the CartItem-Product
      foreign key restricts deletes (AppDbContext.cs:68-72), and product rows
      are otherwise only added or updated. */
  predicate LinesResolve(carts: map<int, Cart>, products: map<int, Product>)
  {
    forall c, k :: c in carts && 0 <= k < |carts[c].items| ==> carts[c].items[k].productId in products
  }

  /** Storing a well-formed cart of an existing user keeps the Carts table valid. */
  lemma PutCart(carts: map<int, Cart>, users: map<int, User>, userId: int, cart: Cart)
    requires CartsValid(carts, users)
    requires userId in users && DistinctProducts(cart.items)
    ensures CartsValid(carts[userId := cart], users)
  {
  }

  /** Storing a cart whose lines all name existing products keeps every
      line resolvable. */
  lemma PutCartResolves(carts: map<int, Cart>, products: map<int, Product>, userId: int, cart: Cart)
    requires LinesResolve(carts, products)
    requires forall k :: 0 <= k < |cart.items| ==> cart.items[k].productId in products
    ensures LinesResolve(carts[userId := cart], products)
  {
  }

  /** Changing a user's wallet keeps the Users table valid while the balance
      stays non-negative and the username is kept. */
  lemma PutUser(users: map<int, User>, id: int, user: User)
    requires UsersValid(users)
    requires id in users && user.username == users[id].username && user.walletBalance >= 0
    ensures UsersValid(users[id := user])
    ensures users[id := user].Keys == users.Keys
  {
  }

  /** Registering a user under a fresh id and an unused username, with an
      empty wallet, keeps the Users table valid. */
  lemma AddUser(users: map<int, User>, id: int, user: User)
    requires UsersValid(users)
    requires id !in users && user.walletBalance >= 0
    requires forall other :: other in users ==> users[other].username != user.username
    ensures UsersValid(users[id := user])
  {
  }

  /** A table whose keys stay the same keeps its identities below the next one. */
  lemma SameKeys<T>(m: map<int, T>, m': map<int, T>, next: int)
    requires KeysBelow(m, next) && m'.Keys == m.Keys
    ensures KeysBelow(m', next)
  {
  }

  /** Carts stay valid when no user disappears. */
  lemma UsersKept(carts: map<int, Cart>, users: map<int, User>, users': map<int, User>)
    requires CartsValid(carts, users) && users.Keys <= users'.Keys
    ensures CartsValid(carts, users')
  {
  }

  /** Each field is one table as last committed by SaveChangesAsync. The
      controllers update a field only where the application saves; what they change
      in between lives in local variables, as in EF Core's change tracker, and
      is lost when an action returns before saving. */
  class Store {
    var users: map<int, User>
    var products: map<int, Product>
    var categories: seq<Category>
    /** Carts keyed by CustomerId: the user-cart relation is one-to-one. */
    var carts: map<int, Cart>
    var orders: map<int, Order>
    /** Payments in insertion order. */
    var payments: seq<Payment>
    /** The next identity values the database hands out. */
    var nextUserId: int
    var nextProductId: int
    var nextOrderId: int

    /** What every committed state satisfies. */
    ghost predicate Valid()
      reads this
    {
      && KeysBelow(users, nextUserId)
      && KeysBelow(products, nextProductId)
      && KeysBelow(orders, nextOrderId)
      && UsersValid(users)
      && CartsValid(carts, users)
      && LinesResolve(carts, products)
    }

    /** A fresh database: the seeded categories and nothing else. The
        WalletBalance column defaults to 0 and IsOrdered to false; the
        operations that create rows write those values explicitly. */
    constructor ()
      ensures Valid()
      ensures users == map[] && products == map[] && carts == map[] && orders == map[]
      ensures payments == [] && categories == SeededCategories
    {
      users, products, carts, orders := map[], map[], map[], map[];
      categories := SeededCategories;
      payments := [];
      nextUserId, nextProductId, nextOrderId := 1, 1, 1;
    }
  }
}
