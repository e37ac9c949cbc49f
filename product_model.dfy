/**
 * The `Product` Eloquent model: its `$fillable` mass-assignment whitelist
 * and its `seller` / `orderItems` relations.
 */
module ProductModel {
  import opened Wrappers
  import opened Http
  import opened Schema

  /** `$fillable`: the only keys mass assignment writes. */
  const Fillable: set<string> := {"name", "description", "price", "stock_quantity", "seller_id"}

  function FillName(p: Product, a: Attrs): string
  {
    if "name" in a && a["name"].Str? then a["name"].s else p.name
  }

  function FillDescription(p: Product, a: Attrs): Option<string>
  {
    if "description" !in a then p.description
    else match a["description"]
      case Str(s) => Some(s)
      case Null => None
      case Num(_) => p.description
  }

  function FillPrice(p: Product, a: Attrs): real
  {
    if "price" in a && a["price"].Num? then a["price"].x else p.price
  }

  function FillStock(p: Product, a: Attrs): int
  {
    if "stock_quantity" in a && a["stock_quantity"].Num? then a["stock_quantity"].x.Floor else p.stock
  }

  function FillSeller(p: Product, a: Attrs): Option<UserId>
  {
    if "seller_id" !in a then p.sellerId
    else if a["seller_id"] == Null then None
    else if AsId(a["seller_id"]).Some? then AsId(a["seller_id"])
    else p.sellerId
  }

  /**
   * `$product->fill($attrs)` (the core of `create` and `update`): every
   * fillable key present in `a` with a value of its column's type
   * overwrites that column, and every other key is ignored.
   */
  function Fill(p: Product, a: Attrs): (r: Product)
    ensures "name" in a && a["name"].Str? ==> r.name == a["name"].s
    ensures "description" in a && a["description"].Str? ==> r.description == Some(a["description"].s)
    ensures "description" in a && a["description"] == Null ==> r.description == None
    ensures "price" in a && a["price"].Num? ==> r.price == a["price"].x
    ensures "stock_quantity" in a && IsInteger(a["stock_quantity"]) ==> r.stock as real == a["stock_quantity"].x
    ensures "seller_id" in a && a["seller_id"] == Null ==> r.sellerId == None
    ensures "seller_id" in a && AsId(a["seller_id"]).Some? ==> r.sellerId == AsId(a["seller_id"])
  {
    Product(FillName(p, a), FillDescription(p, a), FillPrice(p, a), FillStock(p, a), FillSeller(p, a))
  }

  /** The part of `a` that mass assignment may use. */
  function OnlyFillable(a: Attrs): (f: Attrs)
    ensures f.Keys == a.Keys * Fillable
  {
    map k | k in a && k in Fillable :: a[k]
  }

  /** Keys outside `$fillable` have no effect: filling with `a` equals filling with its fillable part. */
  lemma FillReadsOnlyFillable(p: Product, a: Attrs)
    ensures Fill(p, a) == Fill(p, OnlyFillable(a))
  {
    var f := OnlyFillable(a);
    assert FillName(p, a) == FillName(p, f);
    assert FillDescription(p, a) == FillDescription(p, f);
    assert FillPrice(p, a) == FillPrice(p, f);
    assert FillStock(p, a) == FillStock(p, f);
    assert FillSeller(p, a) == FillSeller(p, f);
  }

  /** A request carrying no fillable key leaves the product as it was. */
  lemma FillIgnoresOtherKeys(p: Product, a: Attrs)
    requires forall k :: k in a ==> k !in Fillable
    ensures Fill(p, a) == p
  {
    assert "name" !in a && "description" !in a && "price" !in a;
    assert "stock_quantity" !in a && "seller_id" !in a;
  }

  /** `seller_id` is fillable: a request carrying another id moves the product to that owner. */
  lemma FillReassignsOwner(p: Product, a: Attrs, newOwner: UserId)
    requires "seller_id" in a && a["seller_id"] == Num(newOwner as real)
    ensures Fill(p, a).sellerId == Some(newOwner)
    ensures Fill(p, a).name == p.name || "name" in a
  {
    assert (newOwner as real).Floor == newOwner;
  }

  /** Filling with a request that omits a key keeps that column. */
  lemma FillKeepsAbsent(p: Product, a: Attrs)
    ensures "name" !in a ==> Fill(p, a).name == p.name
    ensures "description" !in a ==> Fill(p, a).description == p.description
    ensures "price" !in a ==> Fill(p, a).price == p.price
    ensures "stock_quantity" !in a ==> Fill(p, a).stock == p.stock
    ensures "seller_id" !in a ==> Fill(p, a).sellerId == p.sellerId
  {
  }

  /**
   * A request that passed a `min:0` price rule cannot make a price negative:
   * it either leaves the price alone or writes a validated one.
   */
  lemma ValidatedFillKeepsPrice(p: Product, a: Attrs, rules: Rules)
    requires p.price >= 0.0 && Validates(a, rules)
    requires "price" in rules && !rules["price"].nullable
    requires rules["price"].min.Some? && rules["price"].min.value >= 0.0
    ensures Fill(p, a).price >= 0.0
  {
    if "price" in a {
      MinHolds(a, rules, "price");
    }
  }

  /** `seller()`: the user whose id is the product's `seller_id`, if any. */
  function SellerOf(p: Product, users: map<UserId, User>): (u: Option<User>)
    ensures u.Some? <==> p.sellerId.Some? && p.sellerId.value in users
    ensures u.Some? ==> u.value == users[p.sellerId.value]
  {
    if p.sellerId.Some? && p.sellerId.value in users then Some(users[p.sellerId.value]) else None
  }

  /** `orderItems()`: every item, over the given orders, whose `product_id` is `id`. */
  function OrderItemsOf(id: ProductId, orders: seq<Order>): (r: seq<OrderItem>)
    ensures forall it :: it in r ==> it.productId == id
    ensures forall i, j ::
              0 <= i < |orders| && 0 <= j < |orders[i].items| && orders[i].items[j].productId == id
              ==> orders[i].items[j] in r
  {
    if orders == [] then []
    else ItemsWithProduct(id, orders[0].items) + OrderItemsOf(id, orders[1..])
  }

  function ItemsWithProduct(id: ProductId, items: seq<OrderItem>): (r: seq<OrderItem>)
    ensures forall it :: it in r <==> it in items && it.productId == id
  {
    if items == [] then []
    else (if items[0].productId == id then [items[0]] else []) + ItemsWithProduct(id, items[1..])
  }
}
