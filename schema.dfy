/**
 * The database tables the Laravel controllers read and write: users,
 * products and orders (with their order items), plus the table scan that
 * Eloquent's `count()`, `sum()` and `get()` run over.
 */
module Schema {
  import opened Wrappers
  import opened Seqs

  type UserId = nat
  type ProductId = nat
  type OrderId = nat

  /** `users.role`; `Customer` is stored as "user". */
  datatype Role = Customer | Seller | Admin

  function RoleName(r: Role): string
  {
    match r
    case Customer => "user"
    case Seller => "seller"
    case Admin => "admin"
  }

  function RoleNamed(s: string): (r: Option<Role>)
    ensures r.Some? ==> RoleName(r.value) == s
    ensures forall role :: RoleName(role) == s ==> r == Some(role)
  {
    if s == "user" then Some(Customer)
    else if s == "seller" then Some(Seller)
    else if s == "admin" then Some(Admin)
    else None
  }

  /** `orders.status`. */
  datatype Status = Pending | Processing | Completed | Cancelled

  function StatusName(st: Status): string
  {
    match st
    case Pending => "pending"
    case Processing => "processing"
    case Completed => "completed"
    case Cancelled => "cancelled"
  }

  function StatusNamed(s: string): (r: Option<Status>)
    ensures r.Some? ==> StatusName(r.value) == s
    ensures forall st :: StatusName(st) == s ==> r == Some(st)
  {
    if s == "pending" then Some(Pending)
    else if s == "processing" then Some(Processing)
    else if s == "completed" then Some(Completed)
    else if s == "cancelled" then Some(Cancelled)
    else None
  }

  datatype User = User(name: string, email: string, role: Role)

  /** A `products` row; `description` and `seller_id` are nullable columns. */
  datatype Product = Product(name: string, description: Option<string>, price: real, stock: int, sellerId: Option<UserId>)

  /** An `order_items` row, embedded in its order; `price` is the price at purchase. */
  datatype OrderItem = OrderItem(productId: ProductId, quantity: nat, price: real)

  /** An `orders` row together with its items in insertion order. */
  datatype Order = Order(userId: UserId, total: real, status: Status, items: seq<OrderItem>)

  function LineAmount(it: OrderItem): real
  {
    it.price * it.quantity as real
  }

  /** Σ price × quantity over the items. */
  function ItemsTotal(items: seq<OrderItem>): real
  {
    Sum(items, LineAmount)
  }

  /**
   * What every order created by checkout satisfies: at least one item, every
   * quantity at least one, every price non-negative, and `total_amount`
   * equal to the sum of its items.
   */
  ghost predicate OrderConsistent(o: Order)
  {
    && |o.items| > 0
    && (forall i :: 0 <= i < |o.items| ==> o.items[i].quantity >= 1 && o.items[i].price >= 0.0)
    && o.total == ItemsTotal(o.items)
  }

  /** The rows of a table with id below `bound`, in ascending id order. */
  function Rows<T>(m: map<nat, T>, bound: nat): (r: seq<(nat, T)>)
    ensures forall i :: 0 <= i < |r| ==> r[i].0 in m && r[i].0 < bound && m[r[i].0] == r[i].1
    ensures forall id :: id in m && id < bound ==> (id, m[id]) in r
  {
    if bound == 0 then []
    else Rows(m, bound - 1) + (if bound - 1 in m then [(bound - 1, m[bound - 1])] else [])
  }

  /** The ids of a table below `bound`. */
  ghost function IdsBelow<T>(m: map<nat, T>, bound: nat): set<nat>
  {
    set id | id in m && id < bound
  }

  /** Raising the bound by one adds at most that one id. */
  lemma IdsBelowStep<T>(m: map<nat, T>, k: nat)
    ensures k in m ==> IdsBelow(m, k + 1) == IdsBelow(m, k) + {k} && k !in IdsBelow(m, k)
    ensures k !in m ==> IdsBelow(m, k + 1) == IdsBelow(m, k)
  {
  }

  /** A table scan lists each row of the table exactly once. */
  lemma {:induction false} RowsCount<T>(m: map<nat, T>, bound: nat)
    ensures |Rows(m, bound)| == |IdsBelow(m, bound)|
  {
    if bound == 0 {
      assert IdsBelow(m, bound) == {};
    } else {
      var k := bound - 1;
      RowsCount(m, k);
      IdsBelowStep(m, k);
      assert |Rows(m, bound)| == |Rows(m, k)| + (if k in m then 1 else 0);
    }
  }

  lemma RowsCountAll<T>(m: map<nat, T>, bound: nat)
    requires forall id :: id in m ==> id < bound
    ensures |Rows(m, bound)| == |m|
  {
    RowsCount(m, bound);
    assert IdsBelow(m, bound) == m.Keys;
  }

  function Second<T>(row: (nat, T)): T
  {
    row.1
  }

  /**
   * The application's database. Ids are handed out by auto-increment
   * counters; every id in a table is below its counter.
   */
  class Database {
    var users: map<UserId, User>
    var products: map<ProductId, Product>
    var orders: map<OrderId, Order>
    var nextUserId: nat
    var nextProductId: nat
    var nextOrderId: nat

    ghost predicate Valid()
      reads this
    {
      && (forall id :: id in users ==> id < nextUserId)
      && (forall id :: id in products ==> id < nextProductId && products[id].price >= 0.0)
      && (forall id :: id in orders ==> id < nextOrderId && OrderConsistent(orders[id]))
    }

    /** No product's stock is negative. */
    ghost predicate StockNonNegative()
      reads this
    {
      forall id :: id in products ==> products[id].stock >= 0
    }

    /** A database holding the registered users and no products or orders yet. */
    constructor (registered: map<UserId, User>, nextUser: nat)
      requires forall id :: id in registered ==> id < nextUser
      ensures Valid() && StockNonNegative()
      ensures users == registered && nextUserId == nextUser
      ensures products == map[] && orders == map[]
    {
      users := registered;
      products := map[];
      orders := map[];
      nextUserId := nextUser;
      nextProductId := 0;
      nextOrderId := 0;
    }

    /** `User::all()` in id order. */
    function UserRows(): seq<User>
      reads this
    {
      Map(Rows(users, nextUserId), Second)
    }

    /** `Product::all()` in id order, with ids. */
    function ProductRows(): seq<(ProductId, Product)>
      reads this
    {
      Rows(products, nextProductId)
    }

    /** `Order::all()` in id order, with ids. */
    function OrderRows(): seq<(OrderId, Order)>
      reads this
    {
      Rows(orders, nextOrderId)
    }
  }
}
