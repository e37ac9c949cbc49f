/**
 * `Api\ProductController`: the product resource. `store` and `update`
 * mass-assign only what validation returned, so a key without a rule
 * (`seller_id` in particular) never reaches the row.
 */
module ProductController {
  import opened Wrappers
  import opened Http
  import opened Schema
  import opened ProductModel

  type Products = map<ProductId, Product>

  /** `Product::all()`: every row, in id order. */
  function Index(db: Database): (r: seq<(ProductId, Product)>)
    reads db
    ensures forall k :: 0 <= k < |r| ==> r[k].0 in db.products && db.products[r[k].0] == r[k].1
  {
    db.ProductRows()
  }

  /** On a consistent database the index lists every product exactly once. */
  lemma IndexListsEveryProduct(db: Database)
    requires db.Valid()
    ensures |Index(db)| == |db.products|
    ensures forall id :: id in db.products ==> (id, db.products[id]) in Index(db)
  {
    RowsCountAll(db.products, db.nextProductId);
  }

  /** `show`: the product, or not found. */
  function Show(products: Products, id: ProductId): (r: Result<Product>)
    ensures r.Ok? <==> id in products
    ensures r.Ok? ==> r.value == products[id]
    ensures r.Err? ==> r.error == NotFound
  {
    if id in products then Ok(products[id]) else Err(NotFound)
  }

  const StoreRules: Rules := map[
    "name" := FieldRule(true, false, Text, None, None),
    "description" := FieldRule(false, true, Text, None, None),
    "price" := FieldRule(true, false, Numeric, Some(0.0), None),
    "stock_quantity" := FieldRule(true, false, Integer, Some(0.0), None)]

  const UpdateRules: Rules := map[
    "name" := FieldRule(false, false, Text, None, None),
    "description" := FieldRule(false, true, Text, None, None),
    "price" := FieldRule(false, false, Numeric, Some(0.0), None),
    "stock_quantity" := FieldRule(false, false, Integer, Some(0.0), None)]

  /** A row before any column is written: no description, no seller. */
  const Unset := Product("", None, 0.0, 0, None)

  /** The row `Product::create($data)` inserts. */
  function Created(a: Attrs): Product
  {
    Fill(Unset, Validated(a, StoreRules))
  }

  /**
   * `store` inserts exactly the validated fields: the name, price and stock
   * sent, the description sent (or none), and never a seller, whatever the
   * request carries under `seller_id`.
   */
  lemma CreatedHasValidatedFields(a: Attrs)
    requires Validates(a, StoreRules)
    ensures Created(a).name == StrOf(a, "name")
    ensures Created(a).price == NumOf(a, "price") >= 0.0
    ensures Created(a).stock as real == NumOf(a, "stock_quantity") >= 0.0
    ensures Created(a).description == (if "description" in a && a["description"].Str? then Some(StrOf(a, "description")) else None)
    ensures Created(a).sellerId == None
  {
    RequiredIsPresent(a, StoreRules, "name");
    RequiredIsPresent(a, StoreRules, "price");
    RequiredIsPresent(a, StoreRules, "stock_quantity");
    MinHolds(a, StoreRules, "price");
    MinHolds(a, StoreRules, "stock_quantity");
  }

  /** `store`: validate, then insert the validated fields under the next id (201). */
  method Store(db: Database, a: Attrs) returns (r: Result<ProductId>)
    requires db.Valid()
    modifies db`products, db`nextProductId
    ensures db.Valid()
    ensures !Validates(a, StoreRules) ==>
              r == Err(Invalid) && db.products == old(db.products) && db.nextProductId == old(db.nextProductId)
    ensures Validates(a, StoreRules) ==>
              && r == Ok(old(db.nextProductId))
              && db.nextProductId == old(db.nextProductId) + 1
              && db.products == old(db.products)[old(db.nextProductId) := Created(a)]
  {
    if !Validates(a, StoreRules) {
      return Err(Invalid);
    }
    CreatedHasValidatedFields(a);
    var id := db.nextProductId;
    db.products := db.products[id := Created(a)];
    db.nextProductId := id + 1;
    r := Ok(id);
  }

  /** The row `update($data)` leaves. */
  function Updated(p: Product, a: Attrs): Product
  {
    Fill(p, Validated(a, UpdateRules))
  }

  /**
   * `update` changes only validated fields that were supplied: an absent
   * field keeps its value, and the seller never changes.
   */
  lemma UpdatedChangesOnlySupplied(p: Product, a: Attrs)
    ensures "name" !in a ==> Updated(p, a).name == p.name
    ensures "description" !in a ==> Updated(p, a).description == p.description
    ensures "price" !in a ==> Updated(p, a).price == p.price
    ensures "stock_quantity" !in a ==> Updated(p, a).stock == p.stock
    ensures Updated(p, a).sellerId == p.sellerId
  {
    FillKeepsAbsent(p, Validated(a, UpdateRules));
  }

  /** Every supplied, validated field is written with the value sent; a `null` description clears it. */
  lemma UpdatedWritesSupplied(p: Product, a: Attrs)
    requires Validates(a, UpdateRules)
    ensures "name" in a ==> Updated(p, a).name == StrOf(a, "name")
    ensures "price" in a ==> Updated(p, a).price == NumOf(a, "price")
    ensures "stock_quantity" in a ==> Updated(p, a).stock as real == NumOf(a, "stock_quantity")
    ensures "description" in a && a["description"] == Null ==> Updated(p, a).description == None
    ensures "description" in a && a["description"] != Null ==> Updated(p, a).description == Some(StrOf(a, "description"))
  {
    assert Passes(Lookup(a, "name"), UpdateRules["name"]);
    assert Passes(Lookup(a, "price"), UpdateRules["price"]);
    assert Passes(Lookup(a, "stock_quantity"), UpdateRules["stock_quantity"]);
    assert Passes(Lookup(a, "description"), UpdateRules["description"]);
  }

  /** `update`: find, then validate, then write the validated fields. */
  method Update(db: Database, a: Attrs, id: ProductId) returns (r: Result<Product>)
    requires db.Valid()
    modifies db`products
    ensures db.Valid()
    ensures id !in old(db.products) ==> r == Err(NotFound) && db.products == old(db.products)
    ensures id in old(db.products) && !Validates(a, UpdateRules) ==>
              r == Err(Invalid) && db.products == old(db.products)
    ensures id in old(db.products) && Validates(a, UpdateRules) ==>
              && db.products == old(db.products)[id := Updated(old(db.products)[id], a)]
              && r == Ok(db.products[id])
  {
    if id !in db.products {
      return Err(NotFound);
    }
    if !Validates(a, UpdateRules) {
      return Err(Invalid);
    }
    var product := db.products[id];
    ValidatedValidates(a, UpdateRules);
    ValidatedFillKeepsPrice(product, Validated(a, UpdateRules), UpdateRules);
    db.products := db.products[id := Updated(product, a)];
    r := Ok(db.products[id]);
  }

  const DeletedMessage := "Product deleted"

  /** `destroy`: remove exactly that product. */
  method Destroy(db: Database, id: ProductId) returns (r: Result<string>)
    requires db.Valid()
    modifies db`products
    ensures db.Valid()
    ensures id !in old(db.products) ==> r == Err(NotFound) && db.products == old(db.products)
    ensures id in old(db.products) ==> r == Ok(DeletedMessage) && db.products == old(db.products) - {id}
  {
    if id !in db.products {
      return Err(NotFound);
    }
    db.products := db.products - {id};
    r := Ok(DeletedMessage);
  }
}
