/**
 * `AdminController`: the admin dashboard's counts and sums, and the admin's
 * updates and deletes on users, products and orders. Every update validates
 * the request before it looks the row up, so an invalid request on an
 * unknown id answers 422, not 404.
 */
module AdminController {
  import opened Wrappers
  import opened Seqs
  import opened Http
  import opened Schema
  import opened ProductModel
  import Text

  /** The dashboard's JSON object. */
  datatype Stats = Stats(
    totalUsers: nat,
    totalSellers: nat,
    totalProducts: nat,
    totalOrders: nat,
    pendingOrders: nat,
    totalRevenue: real)

  predicate IsSeller(u: User)
  {
    u.role == Seller
  }

  predicate IsPendingRow(row: (OrderId, Order))
  {
    row.1.status == Pending
  }

  predicate IsCompletedRow(row: (OrderId, Order))
  {
    row.1.status == Completed
  }

  function RowTotal(row: (OrderId, Order)): real
  {
    row.1.total
  }

  /**
   * `dashboard` over table scans: sellers are counted among the users,
   * pending orders among the orders, and the revenue adds up the completed
   * orders' totals only.
   */
  function DashboardOf(users: seq<User>, products: seq<(ProductId, Product)>, orders: seq<(OrderId, Order)>): (s: Stats)
    ensures s.totalUsers == |users| && s.totalProducts == |products| && s.totalOrders == |orders|
    ensures s.totalSellers <= s.totalUsers
    ensures s.pendingOrders <= s.totalOrders
    ensures s.totalSellers == |Filter(users, IsSeller)|
    ensures s.pendingOrders == |Filter(orders, IsPendingRow)|
    ensures s.totalRevenue == Sum(Filter(orders, IsCompletedRow), RowTotal)
  {
    Stats(
      |users|,
      Count(users, IsSeller),
      |products|,
      |orders|,
      Count(orders, IsPendingRow),
      Sum(Filter(orders, IsCompletedRow), RowTotal))
  }

  /** `dashboard` on the database. */
  function Dashboard(db: Database): (s: Stats)
    reads db
    ensures s.totalSellers <= s.totalUsers && s.pendingOrders <= s.totalOrders
  {
    DashboardOf(db.UserRows(), db.ProductRows(), db.OrderRows())
  }

  /** On a consistent database the counts are the table sizes. */
  lemma DashboardCountsTables(db: Database)
    requires db.Valid()
    ensures Dashboard(db).totalUsers == |db.users|
    ensures Dashboard(db).totalProducts == |db.products|
    ensures Dashboard(db).totalOrders == |db.orders|
  {
    RowsCountAll(db.users, db.nextUserId);
    RowsCountAll(db.products, db.nextProductId);
    RowsCountAll(db.orders, db.nextOrderId);
  }

  /**
   * Revenue is never negative and never more than the sum over all orders,
   * since every order's total is a sum of non-negative amounts.
   */
  lemma RevenueBounded(db: Database)
    requires db.Valid()
    ensures 0.0 <= Dashboard(db).totalRevenue <= Sum(db.OrderRows(), RowTotal)
  {
    var rows := db.OrderRows();
    forall i | 0 <= i < |rows|
      ensures RowTotal(rows[i]) >= 0.0
    {
      var o := rows[i].1;
      assert OrderConsistent(db.orders[rows[i].0]);
      SumNonNegative(o.items, LineAmount);
    }
    SumFilterLe(rows, IsCompletedRow, RowTotal);
  }

  /**
   * Completing an order adds its whole total to the dashboard's revenue;
   * the user, product and order counts stay as they were.
   */
  lemma CompletingAddsRevenue(
    users: seq<User>, products: seq<(ProductId, Product)>,
    before: seq<(OrderId, Order)>, row: (OrderId, Order), after: seq<(OrderId, Order)>)
    requires row.1.status != Completed
    ensures var done := (row.0, row.1.(status := Completed));
            var s, t := DashboardOf(users, products, before + [done] + after), DashboardOf(users, products, before + [row] + after);
            && s.totalRevenue == t.totalRevenue + row.1.total
            && s.totalUsers == t.totalUsers && s.totalSellers == t.totalSellers
            && s.totalProducts == t.totalProducts && s.totalOrders == t.totalOrders
  {
    var done := (row.0, row.1.(status := Completed));
    SumFilterAround(before, done, after, IsCompletedRow, RowTotal);
    SumFilterAround(before, row, after, IsCompletedRow, RowTotal);
  }

  const StatusRule := FieldRule(true, false, OneOf({"pending", "processing", "completed", "cancelled"}), None, None)
  const RoleRule := FieldRule(true, false, OneOf({"user", "seller", "admin"}), None, None)

  /** The status the `status` field names, if it names one. */
  function RequestedStatus(a: Attrs): (r: Option<Status>)
    ensures r.Some? <==> "status" in a && a["status"].Str? && a["status"].s in StatusRule.kind.options
    ensures r.Some? ==> StatusName(r.value) == a["status"].s
  {
    if "status" in a && a["status"].Str? then StatusNamed(a["status"].s) else None
  }

  /** The role the `role` field names, if it names one. */
  function RequestedRole(a: Attrs): (r: Option<Role>)
    ensures r.Some? <==> "role" in a && a["role"].Str? && a["role"].s in RoleRule.kind.options
    ensures r.Some? ==> RoleName(r.value) == a["role"].s
  {
    if "role" in a && a["role"].Str? then RoleNamed(a["role"].s) else None
  }

  /** A request passes the `status` rule exactly when it names one of the four statuses. */
  lemma StatusRuleNamesStatus(a: Attrs)
    ensures Validates(a, map["status" := StatusRule]) <==> RequestedStatus(a).Some?
  {
    var rules := map["status" := StatusRule];
    if Validates(a, rules) {
      assert Passes(Lookup(a, "status"), rules["status"]);
    }
    if RequestedStatus(a).Some? {
      var st := a["status"].s;
      assert !Text.Space(st[0]);
      assert Passes(Lookup(a, "status"), StatusRule);
      assert forall k :: k in map["status" := StatusRule] ==> k == "status";
    }
  }

  /** A request passes the `role` rule exactly when it names one of the three roles. */
  lemma RoleRuleNamesRole(a: Attrs)
    ensures Validates(a, map["role" := RoleRule]) <==> RequestedRole(a).Some?
  {
    var rules := map["role" := RoleRule];
    if Validates(a, rules) {
      assert Passes(Lookup(a, "role"), rules["role"]);
    }
    if RequestedRole(a).Some? {
      var role := a["role"].s;
      assert !Text.Space(role[0]);
      assert Passes(Lookup(a, "role"), RoleRule);
      assert forall k :: k in map["role" := RoleRule] ==> k == "role";
    }
  }

  /**
   * `updateOrderStatus`: any of the four statuses may be set from any
   * current status; nothing else about the order changes.
   */
  method UpdateOrderStatus(db: Database, a: Attrs, id: OrderId) returns (r: Result<Order>)
    requires db.Valid()
    modifies db`orders
    ensures db.Valid()
    ensures !Validates(a, map["status" := StatusRule]) ==> r == Err(Invalid) && db.orders == old(db.orders)
    ensures Validates(a, map["status" := StatusRule]) && id !in old(db.orders) ==>
              r == Err(NotFound) && db.orders == old(db.orders)
    ensures Validates(a, map["status" := StatusRule]) && id in old(db.orders) ==>
              && RequestedStatus(a).Some?
              && db.orders == old(db.orders)[id := old(db.orders)[id].(status := RequestedStatus(a).value)]
              && r == Ok(db.orders[id])
  {
    if !Validates(a, map["status" := StatusRule]) {
      return Err(Invalid);
    }
    StatusRuleNamesStatus(a);
    if id !in db.orders {
      return Err(NotFound);
    }
    var order := db.orders[id];
    var st := RequestedStatus(a).value;
    db.orders := db.orders[id := order.(status := st)];
    r := Ok(db.orders[id]);
  }

  const RoleUpdatedMessage := "User role updated successfully"

  /** `updateUserRole`: set exactly that user's role to one of the three roles. */
  method UpdateUserRole(db: Database, a: Attrs, id: UserId) returns (r: Result<User>)
    requires db.Valid()
    modifies db`users
    ensures db.Valid()
    ensures !Validates(a, map["role" := RoleRule]) ==> r == Err(Invalid) && db.users == old(db.users)
    ensures Validates(a, map["role" := RoleRule]) && id !in old(db.users) ==>
              r == Err(NotFound) && db.users == old(db.users)
    ensures Validates(a, map["role" := RoleRule]) && id in old(db.users) ==>
              && RequestedRole(a).Some?
              && db.users == old(db.users)[id := old(db.users)[id].(role := RequestedRole(a).value)]
              && r == Ok(db.users[id])
  {
    if !Validates(a, map["role" := RoleRule]) {
      return Err(Invalid);
    }
    RoleRuleNamesRole(a);
    if id !in db.users {
      return Err(NotFound);
    }
    var user := db.users[id];
    var role := RequestedRole(a).value;
    db.users := db.users[id := user.(role := role)];
    r := Ok(db.users[id]);
  }

  const SelfDeleteMessage := "Cannot delete yourself"
  const UserDeletedMessage := "User deleted successfully"

  /** `deleteUser`: remove a user other than the caller. */
  method DeleteUser(db: Database, caller: UserId, id: UserId) returns (r: Result<string>)
    requires db.Valid()
    modifies db`users
    ensures db.Valid()
    ensures id !in old(db.users) ==> r == Err(NotFound) && db.users == old(db.users)
    ensures id in old(db.users) && id == caller ==>
              r == Err(BadRequest(SelfDeleteMessage)) && db.users == old(db.users)
    ensures id in old(db.users) && id != caller ==> r == Ok(UserDeletedMessage) && db.users == old(db.users) - {id}
    ensures caller in old(db.users) ==> caller in db.users
  {
    if id !in db.users {
      return Err(NotFound);
    }
    if id == caller {
      return Err(BadRequest(SelfDeleteMessage));
    }
    db.users := db.users - {id};
    r := Ok(UserDeletedMessage);
  }

  /** The admin's product rules: every field optional, and checked only when present. */
  const AdminProductRules: Rules := map[
    "name" := FieldRule(false, false, Text, None, Some(255)),
    "description" := FieldRule(false, false, Text, None, None),
    "price" := FieldRule(false, false, Numeric, Some(0.0), None),
    "stock_quantity" := FieldRule(false, false, Integer, Some(0.0), None)]

  /**
   * `updateProduct`: validate, find, then mass-assign the whole request.
   * Only fillable keys take effect, `seller_id` among them, which the
   * rules do not check.
   */
  method UpdateProduct(db: Database, a: Attrs, id: ProductId) returns (r: Result<Product>)
    requires db.Valid()
    modifies db`products
    ensures db.Valid()
    ensures !Validates(a, AdminProductRules) ==> r == Err(Invalid) && db.products == old(db.products)
    ensures Validates(a, AdminProductRules) && id !in old(db.products) ==>
              r == Err(NotFound) && db.products == old(db.products)
    ensures Validates(a, AdminProductRules) && id in old(db.products) ==>
              && db.products == old(db.products)[id := Fill(old(db.products)[id], a)]
              && r == Ok(db.products[id])
  {
    if !Validates(a, AdminProductRules) {
      return Err(Invalid);
    }
    if id !in db.products {
      return Err(NotFound);
    }
    var product := db.products[id];
    ValidatedFillKeepsPrice(product, a, AdminProductRules);
    db.products := db.products[id := Fill(product, a)];
    r := Ok(db.products[id]);
  }

  const ProductDeletedMessage := "Product deleted successfully"

  /** `deleteProduct`: remove exactly that product. */
  method DeleteProduct(db: Database, id: ProductId) returns (r: Result<string>)
    requires db.Valid()
    modifies db`products
    ensures db.Valid()
    ensures id !in old(db.products) ==> r == Err(NotFound) && db.products == old(db.products)
    ensures id in old(db.products) ==> r == Ok(ProductDeletedMessage) && db.products == old(db.products) - {id}
  {
    if id !in db.products {
      return Err(NotFound);
    }
    db.products := db.products - {id};
    r := Ok(ProductDeletedMessage);
  }
}
