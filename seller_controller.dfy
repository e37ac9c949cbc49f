/**
 * `SellerController`: a seller's own dashboard, product management scoped
 * to the products whose `seller_id` is the caller, and the sales listing.
 */
module SellerController {
  import opened Wrappers
  import opened Seqs
  import opened Http
  import opened Schema
  import opened ProductModel
  import AdminController

  type Products = map<ProductId, Product>

  /** The seller dashboard's JSON object. */
  datatype SellerStats = SellerStats(totalProducts: nat, activeProducts: nat, totalSales: nat, totalRevenue: real)

  function OwnedRow(caller: UserId): ((ProductId, Product)) -> bool
  {
    (row: (ProductId, Product)) => row.1.sellerId == Some(caller)
  }

  function ActiveOwnedRow(caller: UserId): ((ProductId, Product)) -> bool
  {
    (row: (ProductId, Product)) => row.1.sellerId == Some(caller) && row.1.stock > 0
  }

  /** `whereHas('product', seller_id = caller)` on one item: its product exists and is the caller's. */
  predicate SellerItem(products: Products, caller: UserId, it: OrderItem)
  {
    it.productId in products && products[it.productId].sellerId == Some(caller)
  }

  /** `whereHas('items.product', ...)`: the order has at least one of the caller's items. */
  predicate HasSellerItem(products: Products, caller: UserId, o: Order)
  {
    exists it :: it in o.items && SellerItem(products, caller, it)
  }

  function SaleOf(products: Products, caller: UserId): ((OrderId, Order)) -> bool
  {
    (row: (OrderId, Order)) => row.1.status == Completed && HasSellerItem(products, caller, row.1)
  }

  /**
   * `dashboard`: the caller's products and those in stock, and the completed
   * orders that include at least one of the caller's products, with the sum
   * of those orders' whole `total_amount`.
   */
  function SellerDashboardOf(
    productRows: seq<(ProductId, Product)>,
    orderRows: seq<(OrderId, Order)>,
    products: Products,
    caller: UserId): (s: SellerStats)
    ensures s.activeProducts <= s.totalProducts <= |productRows|
    ensures s.totalSales <= Count(orderRows, AdminController.IsCompletedRow)
    ensures s.totalProducts == |Filter(productRows, OwnedRow(caller))|
    ensures s.activeProducts == |Filter(productRows, ActiveOwnedRow(caller))|
    ensures s.totalSales == |Filter(orderRows, SaleOf(products, caller))|
    ensures s.totalRevenue == Sum(Filter(orderRows, SaleOf(products, caller)), AdminController.RowTotal)
  {
    CountMonotone(productRows, ActiveOwnedRow(caller), OwnedRow(caller));
    CountMonotone(orderRows, SaleOf(products, caller), AdminController.IsCompletedRow);
    SellerStats(
      Count(productRows, OwnedRow(caller)),
      Count(productRows, ActiveOwnedRow(caller)),
      Count(orderRows, SaleOf(products, caller)),
      Sum(Filter(orderRows, SaleOf(products, caller)), AdminController.RowTotal))
  }

  function SellerDashboard(db: Database, caller: UserId): (s: SellerStats)
    reads db
    ensures s.activeProducts <= s.totalProducts
  {
    SellerDashboardOf(db.ProductRows(), db.OrderRows(), db.products, caller)
  }

  /** A seller's revenue is part of the admin's: both sum completed orders, the seller's a subset of them. */
  lemma SellerRevenueWithinTotal(db: Database, caller: UserId)
    requires db.Valid()
    ensures 0.0 <= SellerDashboard(db, caller).totalRevenue <= AdminController.Dashboard(db).totalRevenue
  {
    var rows := db.OrderRows();
    forall i | 0 <= i < |rows|
      ensures AdminController.RowTotal(rows[i]) >= 0.0
    {
      assert OrderConsistent(db.orders[rows[i].0]);
      SumNonNegative(rows[i].1.items, LineAmount);
    }
    SumFilterMonotone(rows, SaleOf(db.products, caller), AdminController.IsCompletedRow, AdminController.RowTotal);
    SumFilterLe(rows, SaleOf(db.products, caller), AdminController.RowTotal);
  }

  /**
   * Completing an order that holds one of the caller's items adds its whole
   * total to the caller's revenue and one to the sales; completing an order
   * without one changes neither. The product counts stay as they were.
   */
  lemma CompletingAddsSale(
    productRows: seq<(ProductId, Product)>, products: Products, caller: UserId,
    before: seq<(OrderId, Order)>, row: (OrderId, Order), after: seq<(OrderId, Order)>)
    requires row.1.status != Completed
    ensures var done := (row.0, row.1.(status := Completed));
            var s := SellerDashboardOf(productRows, before + [done] + after, products, caller);
            var t := SellerDashboardOf(productRows, before + [row] + after, products, caller);
            && (HasSellerItem(products, caller, row.1) ==>
                  s.totalRevenue == t.totalRevenue + row.1.total && s.totalSales == t.totalSales + 1)
            && (!HasSellerItem(products, caller, row.1) ==>
                  s.totalRevenue == t.totalRevenue && s.totalSales == t.totalSales)
            && s.totalProducts == t.totalProducts && s.activeProducts == t.activeProducts
  {
    var done := (row.0, row.1.(status := Completed));
    var sale := SaleOf(products, caller);
    assert sale(done) <==> HasSellerItem(products, caller, row.1);
    assert !sale(row);
    SumFilterAround(before, done, after, sale, AdminController.RowTotal);
    SumFilterAround(before, row, after, sale, AdminController.RowTotal);
    FilterAround(before, done, after, sale);
    FilterAround(before, row, after, sale);
  }

  /**
   * The revenue counts a sale's whole `total_amount`, including what other
   * sellers' items in the same order cost.
   */
  lemma RevenueCountsWholeOrder(mine: Product, theirs: Product, seller: UserId, other: UserId)
    requires seller != other && mine.sellerId == Some(seller) && theirs.sellerId == Some(other)
    ensures var products := map[1 := mine, 2 := theirs];
            var o := Order(7, 30.0, Completed, [OrderItem(1, 1, 10.0), OrderItem(2, 1, 20.0)]);
            SellerDashboardOf([], [(1, o)], products, seller).totalRevenue == 30.0
  {
    var products := map[1 := mine, 2 := theirs];
    var o := Order(7, 30.0, Completed, [OrderItem(1, 1, 10.0), OrderItem(2, 1, 20.0)]);
    assert o.items[0] in o.items && SellerItem(products, seller, o.items[0]);
    assert SaleOf(products, seller)((1, o));
    assert [(1, o)][1..] == [];
    assert Filter([(1, o)], SaleOf(products, seller)) == [(1, o)];
  }

  /** The caller's items of an order, in order. */
  function SellerItems(products: Products, caller: UserId, items: seq<OrderItem>): (r: seq<OrderItem>)
    ensures forall it :: it in r <==> it in items && SellerItem(products, caller, it)
  {
    Filter(items, (it: OrderItem) => SellerItem(products, caller, it))
  }

  function HasSellerItemRow(products: Products, caller: UserId): ((OrderId, Order)) -> bool
  {
    (row: (OrderId, Order)) => HasSellerItem(products, caller, row.1)
  }

  function RestrictRow(products: Products, caller: UserId): ((OrderId, Order)) -> (OrderId, Order)
  {
    (row: (OrderId, Order)) => (row.0, row.1.(items := SellerItems(products, caller, row.1.items)))
  }

  /**
   * `getSales`: the orders, of any status, that include one of the
   * caller's products, each with its items cut down to the caller's.
   */
  function Sales(orderRows: seq<(OrderId, Order)>, products: Products, caller: UserId): (r: seq<(OrderId, Order)>)
    ensures forall k :: 0 <= k < |r| ==>
              && |r[k].1.items| > 0
              && (forall it :: it in r[k].1.items ==> SellerItem(products, caller, it))
    ensures forall row :: row in orderRows && HasSellerItem(products, caller, row.1) ==>
              RestrictRow(products, caller)(row) in r
    ensures forall k :: 0 <= k < |r| ==> exists row :: row in orderRows && RestrictRow(products, caller)(row) == r[k]
  {
    var kept := Filter(orderRows, HasSellerItemRow(products, caller));
    var r := Map(kept, RestrictRow(products, caller));
    RestrictedRowsOwnItems(kept, r, products, caller);
    RestrictedRowsComplete(orderRows, kept, r, products, caller);
    r
  }

  /** Cutting rows that hold one of the caller's items down to the caller's items leaves each with some. */
  lemma RestrictedRowsOwnItems(kept: seq<(OrderId, Order)>, r: seq<(OrderId, Order)>, products: Products, caller: UserId)
    requires forall row :: row in kept ==> HasSellerItem(products, caller, row.1)
    requires r == Map(kept, RestrictRow(products, caller))
    ensures forall k :: 0 <= k < |r| ==>
              && |r[k].1.items| > 0
              && (forall it :: it in r[k].1.items ==> SellerItem(products, caller, it))
  {
    forall k | 0 <= k < |r|
      ensures |r[k].1.items| > 0
    {
      var row := kept[k];
      assert row in kept;
      var it :| it in row.1.items && SellerItem(products, caller, it);
      assert it in r[k].1.items;
    }
  }

  /** Every kept row appears, cut down, and every cut-down row comes from a row of the input. */
  lemma RestrictedRowsComplete(orderRows: seq<(OrderId, Order)>, kept: seq<(OrderId, Order)>, r: seq<(OrderId, Order)>,
                               products: Products, caller: UserId)
    requires forall row :: row in kept <==> row in orderRows && HasSellerItem(products, caller, row.1)
    requires r == Map(kept, RestrictRow(products, caller))
    ensures forall row :: row in orderRows && HasSellerItem(products, caller, row.1) ==>
              RestrictRow(products, caller)(row) in r
    ensures forall k :: 0 <= k < |r| ==> exists row :: row in orderRows && RestrictRow(products, caller)(row) == r[k]
  {
    forall row | row in orderRows && HasSellerItem(products, caller, row.1)
      ensures RestrictRow(products, caller)(row) in r
    {
      assert row in kept;
      var k :| 0 <= k < |kept| && kept[k] == row;
      assert r[k] == RestrictRow(products, caller)(row);
    }
    forall k | 0 <= k < |r|
      ensures exists row :: row in orderRows && RestrictRow(products, caller)(row) == r[k]
    {
      assert kept[k] in kept;
    }
  }

  /** `createProduct`'s rules: every field required. */
  const CreateRules: Rules := map[
    "name" := FieldRule(true, false, Text, None, Some(255)),
    "description" := FieldRule(true, false, Text, None, None),
    "price" := FieldRule(true, false, Numeric, Some(0.0), None),
    "stock_quantity" := FieldRule(true, false, Integer, Some(0.0), None)]

  /** The product `createProduct` inserts: the four request fields, owned by the caller. */
  function NewProduct(a: Attrs, caller: UserId): (p: Product)
    requires Validates(a, CreateRules)
    ensures |p.name| <= 255 && p.price >= 0.0 && p.stock >= 0
    ensures p.sellerId == Some(caller)
    ensures p.name == StrOf(a, "name") && p.description == Some(StrOf(a, "description"))
    ensures p.price == NumOf(a, "price") && p.stock as real == NumOf(a, "stock_quantity")
  {
    RequiredIsPresent(a, CreateRules, "name");
    RequiredIsPresent(a, CreateRules, "description");
    RequiredIsPresent(a, CreateRules, "price");
    RequiredIsPresent(a, CreateRules, "stock_quantity");
    MinHolds(a, CreateRules, "price");
    MinHolds(a, CreateRules, "stock_quantity");
    assert Passes(Lookup(a, "name"), CreateRules["name"]);
    Product(StrOf(a, "name"), Some(StrOf(a, "description")), NumOf(a, "price"), NumOf(a, "stock_quantity").Floor, Some(caller))
  }

  /** `createProduct`: insert the validated product under the next id, owned by the caller (201). */
  method CreateProduct(db: Database, caller: UserId, a: Attrs) returns (r: Result<ProductId>)
    requires db.Valid()
    modifies db`products, db`nextProductId
    ensures db.Valid()
    ensures !Validates(a, CreateRules) ==>
              r == Err(Invalid) && db.products == old(db.products) && db.nextProductId == old(db.nextProductId)
    ensures Validates(a, CreateRules) ==>
              && r == Ok(old(db.nextProductId))
              && db.nextProductId == old(db.nextProductId) + 1
              && db.products == old(db.products)[old(db.nextProductId) := NewProduct(a, caller)]
  {
    if !Validates(a, CreateRules) {
      return Err(Invalid);
    }
    var id := db.nextProductId;
    db.products := db.products[id := NewProduct(a, caller)];
    db.nextProductId := id + 1;
    r := Ok(id);
  }

  /** The update rules: every field optional, and checked only when present. */
  const UpdateRules: Rules := map[
    "name" := FieldRule(false, false, Text, None, Some(255)),
    "description" := FieldRule(false, false, Text, None, None),
    "price" := FieldRule(false, false, Numeric, Some(0.0), None),
    "stock_quantity" := FieldRule(false, false, Integer, Some(0.0), None)]

  /** `Product::where('seller_id', caller)->findOrFail($id)`. */
  predicate OwnsProduct(products: Products, caller: UserId, id: ProductId)
  {
    id in products && products[id].sellerId == Some(caller)
  }

  /**
   * `updateProduct`: find among the caller's own products first, then
   * validate, then mass-assign the whole request, `seller_id` included.
   */
  method UpdateProduct(db: Database, caller: UserId, a: Attrs, id: ProductId) returns (r: Result<Product>)
    requires db.Valid()
    modifies db`products
    ensures db.Valid()
    ensures !OwnsProduct(old(db.products), caller, id) ==> r == Err(NotFound) && db.products == old(db.products)
    ensures OwnsProduct(old(db.products), caller, id) && !Validates(a, UpdateRules) ==>
              r == Err(Invalid) && db.products == old(db.products)
    ensures OwnsProduct(old(db.products), caller, id) && Validates(a, UpdateRules) ==>
              && db.products == old(db.products)[id := Fill(old(db.products)[id], a)]
              && r == Ok(db.products[id])
  {
    if !OwnsProduct(db.products, caller, id) {
      return Err(NotFound);
    }
    if !Validates(a, UpdateRules) {
      return Err(Invalid);
    }
    var product := db.products[id];
    ValidatedFillKeepsPrice(product, a, UpdateRules);
    db.products := db.products[id := Fill(product, a)];
    r := Ok(db.products[id]);
  }

  /** A seller can hand a product to another user: the update writes the `seller_id` it is given. */
  lemma UpdateCanGiveProductAway(p: Product, newOwner: UserId)
    ensures var a := map["seller_id" := Num(newOwner as real)];
            Validates(a, UpdateRules) && Fill(p, a) == p.(sellerId := Some(newOwner))
  {
    var a := map["seller_id" := Num(newOwner as real)];
    FillReassignsOwner(p, a, newOwner);
    FillKeepsAbsent(p, a);
    forall k | k in UpdateRules
      ensures Passes(Lookup(a, k), UpdateRules[k])
    {
      assert k != "seller_id";
    }
  }

  /** `deleteProduct`: remove the product if it is the caller's. */
  method DeleteProduct(db: Database, caller: UserId, id: ProductId) returns (r: Result<string>)
    requires db.Valid()
    modifies db`products
    ensures db.Valid()
    ensures !OwnsProduct(old(db.products), caller, id) ==> r == Err(NotFound) && db.products == old(db.products)
    ensures OwnsProduct(old(db.products), caller, id) ==>
              r == Ok(AdminController.ProductDeletedMessage) && db.products == old(db.products) - {id}
  {
    if !OwnsProduct(db.products, caller, id) {
      return Err(NotFound);
    }
    db.products := db.products - {id};
    r := Ok(AdminController.ProductDeletedMessage);
  }
}
