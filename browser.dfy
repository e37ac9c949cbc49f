/**
 * The browser-side state the React pages share: the product JSON the API
 * returns, the cart lines kept under the `cart` key of `localStorage`, and
 * the `token` and `user` keys the login page writes.
 */
module Browser {
  import opened Wrappers
  import opened Seqs

  /** A product as the listing receives it. */
  datatype Listing = Listing(id: nat, name: string, description: Option<string>, price: real, stock: int)

  /** A cart line: the product's fields spread in, plus `quantity`. */
  datatype CartItem = CartItem(product: Listing, quantity: int)
  {
    function Id(): nat
    {
      product.id
    }
  }

  /** The stored `user` object; only its `role` is read. */
  datatype UserRecord = UserRecord(role: string)

  /** A JavaScript string is truthy when it is present and not empty. */
  predicate Truthy(s: Option<string>)
  {
    s.Some? && s.value != ""
  }

  function ItemQuantity(it: CartItem): int
  {
    it.quantity
  }

  /** Σ quantity over the cart. */
  function TotalQuantity(cart: seq<CartItem>): int
  {
    SumInt(cart, ItemQuantity)
  }

  /** No two cart lines share a product id. */
  predicate UniqueIds(cart: seq<CartItem>)
  {
    forall i, j :: 0 <= i < j < |cart| ==> cart[i].Id() != cart[j].Id()
  }

  /** The `localStorage` entries the pages use; `None` is a missing key. */
  class Storage {
    var token: Option<string>
    var user: Option<UserRecord>
    var cart: Option<seq<CartItem>>

    constructor (token: Option<string>, user: Option<UserRecord>, cart: Option<seq<CartItem>>)
      ensures this.token == token && this.user == user && this.cart == cart
    {
      this.token := token;
      this.user := user;
      this.cart := cart;
    }

    /** `JSON.parse(localStorage.getItem('cart') || '[]')`: the stored cart, or an empty one. */
    function SavedCart(): (c: seq<CartItem>)
      reads this
      ensures cart.None? ==> c == []
      ensures cart.Some? ==> c == cart.value
    {
      if cart.Some? then cart.value else []
    }
  }
}
