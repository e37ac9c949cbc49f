/**
 * `Api\OrderController`: checkout (`store`), the owner-scoped reads
 * (`index`, `show`) and the manual payment confirmation (`pay`).
 */
module OrderController {
  import opened Wrappers
  import opened Http
  import opened Seqs
  import opened Schema

  type Products = map<ProductId, Product>

  /** One element of the request's `items` array, as sent (None: key missing). */
  datatype LineInput = LineInput(productId: Option<Value>, quantity: Option<Value>)

  /** A request line that passed validation. */
  datatype Line = Line(productId: ProductId, quantity: nat)

  /** `items.*.product_id: required|exists:products,id` and `items.*.quantity: required|integer|min:1`. */
  predicate ValidLine(products: Products, l: LineInput)
  {
    && l.productId.Some? && IsInteger(l.productId.value) && l.productId.value.x >= 0.0
    && (l.productId.value.x.Floor as nat) in products
    && l.quantity.Some? && IsInteger(l.quantity.value) && l.quantity.value.x >= 1.0
  }

  function ToLine(products: Products, l: LineInput): Line
    requires ValidLine(products, l)
  {
    Line(l.productId.value.x.Floor as nat, l.quantity.value.x.Floor as nat)
  }

  /** Every line names a product of the table. */
  predicate Known(products: Products, lines: seq<Line>)
  {
    forall i :: 0 <= i < |lines| ==> lines[i].productId in products
  }

  /**
   * `$request->validate([...])` for checkout: `items` must be present, an
   * array and (Laravel's `required`) non-empty, and every line valid.
   */
  function ParseItems(products: Products, items: Option<seq<LineInput>>): (r: Result<seq<Line>>)
    ensures r.Ok? <==> items.Some? && |items.value| > 0 && forall i :: 0 <= i < |items.value| ==> ValidLine(products, items.value[i])
    ensures r.Err? ==> r.error == Invalid
    ensures r.Ok? ==> |r.value| == |items.value| > 0 && Known(products, r.value)
    ensures r.Ok? ==> forall i :: 0 <= i < |r.value| ==>
              r.value[i].quantity >= 1 && r.value[i] == ToLine(products, items.value[i])
  {
    if items.None? || |items.value| == 0 || !(forall i :: 0 <= i < |items.value| ==> ValidLine(products, items.value[i])) then
      Err(Invalid)
    else
      Ok(seq(|items.value|, i requires 0 <= i < |items.value| => ToLine(products, items.value[i])))
  }

  /** The line asks for more than the product's stock. */
  predicate Short(products: Products, l: Line)
  {
    l.productId in products && products[l.productId].stock < l.quantity
  }

  /** The first line that the per-line stock check (`stock_quantity < quantity`) rejects. */
  function FirstShort(products: Products, lines: seq<Line>): (r: Option<nat>)
    ensures r.None? <==> forall i :: 0 <= i < |lines| ==> !Short(products, lines[i])
    ensures r.Some? ==> r.value < |lines| && Short(products, lines[r.value])
    ensures r.Some? ==> forall i :: 0 <= i < r.value ==> !Short(products, lines[i])
  {
    if lines == [] then None
    else if Short(products, lines[0]) then Some(0)
    else match FirstShort(products, lines[1..])
      case None => None
      case Some(k) => Some(k + 1)
  }

  function PriceOf(products: Products, id: ProductId): real
  {
    if id in products then products[id].price else 0.0
  }

  function CostIn(products: Products): Line -> real
  {
    (l: Line) => PriceOf(products, l.productId) * l.quantity as real
  }

  /** `$total`: Σ price × quantity over the lines, at the prices read during checkout. */
  function LinesTotal(products: Products, lines: seq<Line>): real
  {
    Sum(lines, CostIn(products))
  }

  function ItemIn(products: Products): Line -> OrderItem
  {
    (l: Line) => OrderItem(l.productId, l.quantity, PriceOf(products, l.productId))
  }

  /** The `OrderItem` rows checkout creates: one per line, the product's current price copied in. */
  function ItemsFor(products: Products, lines: seq<Line>): seq<OrderItem>
  {
    Map(lines, ItemIn(products))
  }

  /** `$product->decrement('stock_quantity', $quantity)` for one line. */
  function Decrement(products: Products, l: Line): Products
  {
    if l.productId in products then
      products[l.productId := products[l.productId].(stock := products[l.productId].stock - l.quantity)]
    else products
  }

  /** The product table after decrementing every line in turn. */
  function Reserve(products: Products, lines: seq<Line>): (r: Products)
    ensures r.Keys == products.Keys
    decreases |lines|
  {
    if lines == [] then products
    else Decrement(Reserve(products, lines[..|lines| - 1]), lines[|lines| - 1])
  }

  /** Total quantity the lines ask of product `id`. */
  function Demand(lines: seq<Line>, id: ProductId): int
    decreases |lines|
  {
    if lines == [] then 0
    else Demand(lines[..|lines| - 1], id) + (if lines[|lines| - 1].productId == id then lines[|lines| - 1].quantity else 0)
  }

  predicate DistinctIds(lines: seq<Line>)
  {
    forall i, j :: 0 <= i < j < |lines| ==> lines[i].productId != lines[j].productId
  }

  predicate NoNegativeStock(products: Products)
  {
    forall id :: id in products ==> products[id].stock >= 0
  }

  /** The order items checkout creates add up to the `total_amount` it records. */
  lemma {:induction false} ItemsForTotal(products: Products, lines: seq<Line>)
    ensures ItemsTotal(ItemsFor(products, lines)) == LinesTotal(products, lines)
  {
    if lines != [] {
      assert ItemsFor(products, lines)[1..] == ItemsFor(products, lines[1..]);
      ItemsForTotal(products, lines[1..]);
    }
  }

  /**
   * Decrementing all lines lowers each product's stock by exactly the
   * quantity the lines ask of it and changes nothing else.
   */
  lemma {:induction false} ReserveEffect(products: Products, lines: seq<Line>)
    ensures forall id :: id in products ==>
              Reserve(products, lines)[id] == products[id].(stock := products[id].stock - Demand(lines, id))
  {
    if lines != [] {
      ReserveEffect(products, lines[..|lines| - 1]);
    }
  }

  /** With distinct product ids a product's demand is the quantity of its single line, or zero. */
  lemma {:induction false} DemandOfDistinct(lines: seq<Line>, id: ProductId)
    requires DistinctIds(lines)
    ensures forall i :: 0 <= i < |lines| && lines[i].productId == id ==> Demand(lines, id) == lines[i].quantity
    ensures (forall i :: 0 <= i < |lines| ==> lines[i].productId != id) ==> Demand(lines, id) == 0
  {
    if lines != [] {
      var init := lines[..|lines| - 1];
      assert DistinctIds(init);
      DemandOfDistinct(init, id);
      if lines[|lines| - 1].productId == id {
        assert forall i :: 0 <= i < |init| ==> init[i].productId != id;
      }
    }
  }

  /**
   * The per-line stock check is enough when the product ids are distinct:
   * no stock goes negative.
   */
  lemma DistinctIdsKeepStock(products: Products, lines: seq<Line>)
    requires NoNegativeStock(products) && Known(products, lines)
    requires DistinctIds(lines) && FirstShort(products, lines).None?
    ensures NoNegativeStock(Reserve(products, lines))
  {
    ReserveEffect(products, lines);
    forall id | id in products
      ensures Reserve(products, lines)[id].stock >= 0
    {
      DemandOfDistinct(lines, id);
      if i :| 0 <= i < |lines| && lines[i].productId == id {
        assert !Short(products, lines[i]);
      }
    }
  }

  /**
   * The line `lines[i]` asks for more than what is left of its product once
   * the earlier lines have been decremented.
   */
  predicate Oversold(products: Products, lines: seq<Line>, i: nat)
    requires i < |lines|
  {
    var left := Reserve(products, lines[..i]);
    lines[i].productId in left && left[lines[i].productId].stock < lines[i].quantity
  }

  /** The first line, from `from` on, that the cumulative stock check rejects. */
  function FirstOversoldFrom(products: Products, lines: seq<Line>, from: nat): (r: Option<nat>)
    requires from <= |lines|
    ensures r.None? <==> forall i :: from <= i < |lines| ==> !Oversold(products, lines, i)
    ensures r.Some? ==> from <= r.value < |lines| && Oversold(products, lines, r.value)
    ensures r.Some? ==> forall i :: from <= i < r.value ==> !Oversold(products, lines, i)
    decreases |lines| - from
  {
    if from == |lines| then None
    else if Oversold(products, lines, from) then Some(from)
    else FirstOversoldFrom(products, lines, from + 1)
  }

  /** The cumulative check keeps every stock non-negative, whatever the ids. */
  lemma {:induction false} CumulativeCheckKeepsStock(products: Products, lines: seq<Line>)
    requires NoNegativeStock(products)
    requires forall i :: 0 <= i < |lines| ==> !Oversold(products, lines, i)
    ensures NoNegativeStock(Reserve(products, lines))
  {
    if lines != [] {
      var n := |lines| - 1;
      var init := lines[..n];
      forall i | 0 <= i < |init|
        ensures !Oversold(products, init, i)
      {
        assert init[..i] == lines[..i];
        assert !Oversold(products, lines, i);
      }
      CumulativeCheckKeepsStock(products, init);
      assert lines[..n] == init;
      assert !Oversold(products, lines, n);
    }
  }

  /** With distinct ids the per-line check and the cumulative check reject the same lines. */
  lemma DistinctChecksAgree(products: Products, lines: seq<Line>)
    requires Known(products, lines) && DistinctIds(lines)
    ensures forall i :: 0 <= i < |lines| ==> (Oversold(products, lines, i) <==> Short(products, lines[i]))
  {
    forall i | 0 <= i < |lines|
      ensures Oversold(products, lines, i) <==> Short(products, lines[i])
    {
      var init := lines[..i];
      assert DistinctIds(init);
      ReserveEffect(products, init);
      DemandOfDistinct(init, lines[i].productId);
    }
  }

  /**
   * The per-line check lets a request through that oversells: two lines for
   * the same product, each within its stock of 1, leave the stock at -1,
   * while the cumulative check rejects the second line.
   */
  lemma DuplicateIdsOversell()
    ensures var products := map[1 := Product("Mug", None, 5.0, 1, None)];
            var lines := [Line(1, 1), Line(1, 1)];
            && FirstShort(products, lines).None?
            && Reserve(products, lines)[1].stock == -1
            && FirstOversoldFrom(products, lines, 0) == Some(1)
  {
    var products := map[1 := Product("Mug", None, 5.0, 1, None)];
    var lines := [Line(1, 1), Line(1, 1)];
    assert lines[..1] == [Line(1, 1)];
    assert lines[..0] == [];
    assert !Oversold(products, lines, 0);
    assert Oversold(products, lines, 1);
  }

  function InsufficientStock(name: string): string
  {
    "Insufficient stock for " + name
  }

  /**
   * The second half of checkout: insert the `pending` order, then one item
   * per line at the product's price, decrementing that product's stock.
   */
  method CommitOrder(db: Database, caller: UserId, lines: seq<Line>, total: real) returns (id: OrderId)
    requires db.Valid()
    requires |lines| > 0 && Known(db.products, lines)
    requires forall i :: 0 <= i < |lines| ==> lines[i].quantity >= 1
    requires total == LinesTotal(db.products, lines)
    modifies db`orders, db`products, db`nextOrderId
    ensures db.Valid()
    ensures id == old(db.nextOrderId) && db.nextOrderId == id + 1
    ensures db.orders == old(db.orders)[id := Order(caller, total, Pending, ItemsFor(old(db.products), lines))]
    ensures db.products == Reserve(old(db.products), lines)
  {
    var products, items := CommitLines(db.products, lines);
    NewOrderConsistent(db.products, lines, caller, total);
    ReserveEffect(db.products, lines);
    id := db.nextOrderId;
    db.orders := db.orders[id := Order(caller, total, Pending, items)];
    db.products := products;
    db.nextOrderId := id + 1;
  }

  /**
   * The commit loop over the product table: one item per line at the
   * product's price, and that product's stock decremented.
   */
  method CommitLines(before: Products, lines: seq<Line>) returns (products: Products, items: seq<OrderItem>)
    requires Known(before, lines)
    ensures items == ItemsFor(before, lines)
    ensures products == Reserve(before, lines)
  {
    products := before;
    items := [];
    var i := 0;
    while i < |lines|
      invariant 0 <= i <= |lines|
      invariant items == ItemsFor(before, lines[..i])
      invariant products == Reserve(before, lines[..i])
    {
      var l := lines[i];
      ReserveStep(before, lines, i);
      ItemsForStep(before, lines, i);
      var product := products[l.productId];
      items := items + [OrderItem(l.productId, l.quantity, product.price)];
      products := products[l.productId := product.(stock := product.stock - l.quantity)];
      i := i + 1;
    }
    assert lines[..i] == lines;
  }

  /** One step of the commit loop on the product table: the line's product is still there, at its price. */
  lemma ReserveStep(products: Products, lines: seq<Line>, i: nat)
    requires i < |lines| && Known(products, lines)
    ensures lines[i].productId in Reserve(products, lines[..i])
    ensures Reserve(products, lines[..i])[lines[i].productId].price == PriceOf(products, lines[i].productId)
    ensures Reserve(products, lines[..i + 1]) == Decrement(Reserve(products, lines[..i]), lines[i])
  {
    ReserveEffect(products, lines[..i]);
    assert lines[..i + 1][..i] == lines[..i];
  }

  /** One step of the commit loop on the items: the line's item goes at the end. */
  lemma ItemsForStep(products: Products, lines: seq<Line>, i: nat)
    requires i < |lines|
    ensures ItemsFor(products, lines[..i + 1]) == ItemsFor(products, lines[..i]) + [ItemIn(products)(lines[i])]
  {
    var a := ItemsFor(products, lines[..i + 1]);
    var b := ItemsFor(products, lines[..i]) + [ItemIn(products)(lines[i])];
    assert |a| == |b|;
    assert forall k :: 0 <= k < |a| ==> a[k] == b[k];
  }

  /** The order checkout inserts satisfies the order invariant. */
  lemma NewOrderConsistent(products: Products, lines: seq<Line>, caller: UserId, total: real)
    requires |lines| > 0 && Known(products, lines)
    requires forall i :: 0 <= i < |lines| ==> lines[i].quantity >= 1
    requires forall id :: id in products ==> products[id].price >= 0.0
    requires total == LinesTotal(products, lines)
    ensures OrderConsistent(Order(caller, total, Pending, ItemsFor(products, lines)))
  {
    ItemsForTotal(products, lines);
  }

  /**
   * `store`: validate, check every line against its product's stock and sum
   * the total, then commit. The stock check compares each line with the
   * stock as it stood before checkout, one line at a time.
   */
  method Store(db: Database, caller: UserId, items: Option<seq<LineInput>>) returns (r: Result<OrderId>)
    requires db.Valid()
    modifies db`orders, db`products, db`nextOrderId
    ensures db.Valid()
    ensures ParseItems(old(db.products), items).Err? ==> r == Err(Invalid) && unchanged(db)
    ensures ParseItems(old(db.products), items).Ok? ==>
              var lines := ParseItems(old(db.products), items).value;
              match FirstShort(old(db.products), lines)
              case Some(i) =>
                && r == Err(BadRequest(InsufficientStock(old(db.products)[lines[i].productId].name)))
                && unchanged(db)
              case None =>
                && r == Ok(old(db.nextOrderId))
                && db.nextOrderId == old(db.nextOrderId) + 1
                && db.orders == old(db.orders)[old(db.nextOrderId) :=
                     Order(caller, LinesTotal(old(db.products), lines), Pending, ItemsFor(old(db.products), lines))]
                && db.products == Reserve(old(db.products), lines)
    ensures (&& old(db.StockNonNegative())
             && ParseItems(old(db.products), items).Ok?
             && DistinctIds(ParseItems(old(db.products), items).value))
            ==> db.StockNonNegative()
  {
    var parsed := ParseItems(db.products, items);
    if parsed.Err? {
      return Err(Invalid);
    }
    var lines := parsed.value;
    var first, total := CheckEach(db.products, lines);
    if first.Some? {
      return Err(BadRequest(InsufficientStock(db.products[lines[first.value].productId].name)));
    }
    if db.StockNonNegative() && DistinctIds(lines) {
      DistinctIdsKeepStock(db.products, lines);
    }
    var id := CommitOrder(db, caller, lines, total);
    r := Ok(id);
  }

  /**
   * The first loop of `store`: walk the lines, comparing each with its
   * product's stock and summing the total, and stop at the first line that
   * asks for more than the stock.
   */
  method CheckEach(products: Products, lines: seq<Line>) returns (first: Option<nat>, total: real)
    requires Known(products, lines)
    ensures first == FirstShort(products, lines)
    ensures first.None? ==> total == LinesTotal(products, lines)
  {
    total := 0.0;
    var i := 0;
    while i < |lines|
      invariant 0 <= i <= |lines|
      invariant total == LinesTotal(products, lines[..i])
      invariant forall j :: 0 <= j < i ==> !Short(products, lines[j])
    {
      var l := lines[i];
      if products[l.productId].stock < l.quantity {
        assert Short(products, l);
        return Some(i), total;
      }
      assert lines[..i + 1] == lines[..i] + [l];
      SumAppend(lines[..i], l, CostIn(products));
      total := total + CostIn(products)(l);
      i := i + 1;
    }
    assert lines[..i] == lines;
    first := None;
  }

  /**
   * Checkout with the stock check made cumulative: each line is checked
   * against what the earlier lines of the same request left, so no stock
   * can go negative.
   */
  method StoreReserving(db: Database, caller: UserId, items: Option<seq<LineInput>>) returns (r: Result<OrderId>)
    requires db.Valid()
    modifies db`orders, db`products, db`nextOrderId
    ensures db.Valid()
    ensures ParseItems(old(db.products), items).Err? ==> r == Err(Invalid) && unchanged(db)
    ensures ParseItems(old(db.products), items).Ok? ==>
              var lines := ParseItems(old(db.products), items).value;
              match FirstOversoldFrom(old(db.products), lines, 0)
              case Some(i) =>
                && r == Err(BadRequest(InsufficientStock(old(db.products)[lines[i].productId].name)))
                && unchanged(db)
              case None =>
                && r == Ok(old(db.nextOrderId))
                && db.nextOrderId == old(db.nextOrderId) + 1
                && db.orders == old(db.orders)[old(db.nextOrderId) :=
                     Order(caller, LinesTotal(old(db.products), lines), Pending, ItemsFor(old(db.products), lines))]
                && db.products == Reserve(old(db.products), lines)
    ensures old(db.StockNonNegative()) ==> db.StockNonNegative()
  {
    var parsed := ParseItems(db.products, items);
    if parsed.Err? {
      return Err(Invalid);
    }
    var lines := parsed.value;
    var first, total := CheckCumulative(db.products, lines);
    if first.Some? {
      return Err(BadRequest(InsufficientStock(db.products[lines[first.value].productId].name)));
    }
    if db.StockNonNegative() {
      CumulativeCheckKeepsStock(db.products, lines);
    }
    var id := CommitOrder(db, caller, lines, total);
    r := Ok(id);
  }

  /**
   * The loop of the corrected checkout: walk the lines, checking each one
   * against what the earlier lines left and summing the total, and stop at
   * the first line that does not fit.
   */
  method CheckCumulative(products: Products, lines: seq<Line>) returns (first: Option<nat>, total: real)
    requires Known(products, lines)
    ensures first == FirstOversoldFrom(products, lines, 0)
    ensures first.None? ==> total == LinesTotal(products, lines)
  {
    var left := products;
    total := 0.0;
    var i := 0;
    while i < |lines|
      invariant 0 <= i <= |lines|
      invariant left == Reserve(products, lines[..i])
      invariant total == LinesTotal(products, lines[..i])
      invariant FirstOversoldFrom(products, lines, 0) == FirstOversoldFrom(products, lines, i)
    {
      var l := lines[i];
      ReservingStep(products, lines, i);
      if left[l.productId].stock < l.quantity {
        return Some(i), total;
      }
      total := total + CostIn(products)(l);
      left := Decrement(left, l);
      i := i + 1;
    }
    assert lines[..i] == lines;
    first := None;
  }

  /** One step of the cumulative check, on the specification side. */
  lemma ReservingStep(products: Products, lines: seq<Line>, i: nat)
    requires i < |lines| && Known(products, lines)
    ensures lines[i].productId in Reserve(products, lines[..i])
    ensures Reserve(products, lines[..i + 1]) == Decrement(Reserve(products, lines[..i]), lines[i])
    ensures Oversold(products, lines, i) <==> Reserve(products, lines[..i])[lines[i].productId].stock < lines[i].quantity
    ensures LinesTotal(products, lines[..i + 1]) == LinesTotal(products, lines[..i]) + CostIn(products)(lines[i])
  {
    ReserveStep(products, lines, i);
    assert lines[..i + 1] == lines[..i] + [lines[i]];
    SumAppend(lines[..i], lines[i], CostIn(products));
  }

  /** `$request->user()->orders()->findOrFail($id)`: the caller's order, or not found. */
  function Show(orders: map<OrderId, Order>, caller: UserId, id: OrderId): (r: Result<Order>)
    ensures r.Ok? <==> id in orders && orders[id].userId == caller
    ensures r.Ok? ==> r.value == orders[id]
    ensures r.Err? ==> r.error == NotFound
  {
    if id in orders && orders[id].userId == caller then Ok(orders[id]) else Err(NotFound)
  }

  /** Another user's order answers exactly as an order that does not exist. */
  lemma ForeignOrderLooksMissing(orders: map<OrderId, Order>, caller: UserId, id: OrderId)
    requires id in orders && orders[id].userId != caller
    ensures Show(orders, caller, id) == Show(orders - {id}, caller, id) == Err(NotFound)
  {
  }

  function OwnedBy(caller: UserId): ((OrderId, Order)) -> bool
  {
    (row: (OrderId, Order)) => row.1.userId == caller
  }

  /** `index`: the caller's orders, and only those. */
  function Index(rows: seq<(OrderId, Order)>, caller: UserId): (r: seq<(OrderId, Order)>)
    ensures forall row :: row in r <==> row in rows && row.1.userId == caller
    ensures |r| <= |rows|
  {
    Filter(rows, OwnedBy(caller))
  }

  const PaidMessage := "Payment successful, order is now processing."
  const NotPendingMessage := "Payment already processed or order is not pending"

  /** `pay`: the guarded `pending` to `processing` transition on the caller's own order. */
  method Pay(db: Database, caller: UserId, id: OrderId) returns (r: Result<string>)
    requires db.Valid()
    modifies db`orders
    ensures db.Valid()
    ensures Show(old(db.orders), caller, id).Err? ==> r == Err(NotFound) && db.orders == old(db.orders)
    ensures Show(old(db.orders), caller, id).Ok? && old(db.orders)[id].status != Pending ==>
              r == Err(BadRequest(NotPendingMessage)) && db.orders == old(db.orders)
    ensures Show(old(db.orders), caller, id).Ok? && old(db.orders)[id].status == Pending ==>
              && r == Ok(PaidMessage)
              && db.orders == old(db.orders)[id := old(db.orders)[id].(status := Processing)]
  {
    var found := Show(db.orders, caller, id);
    if found.Err? {
      return Err(NotFound);
    }
    var order := found.value;
    if order.status != Pending {
      return Err(BadRequest(NotPendingMessage));
    }
    db.orders := db.orders[id := order.(status := Processing)];
    r := Ok(PaidMessage);
  }

  /** Paying the same order twice: the second call is always refused and changes nothing. */
  method PayTwice(db: Database, caller: UserId, id: OrderId) returns (first: Result<string>, second: Result<string>)
    requires db.Valid()
    modifies db`orders
    ensures db.Valid()
    ensures second.Err?
    ensures first.Ok? ==> second == Err(BadRequest(NotPendingMessage))
    ensures first.Ok? ==> id in old(db.orders) && db.orders == old(db.orders)[id := old(db.orders)[id].(status := Processing)]
  {
    first := Pay(db, caller, id);
    second := Pay(db, caller, id);
  }
}
