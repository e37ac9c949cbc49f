/**
 * The cart page: quantity changes, removal, the promo code, the price
 * summary and placing the order. The price arithmetic is exact here.
 */
module Cart {
  import opened Wrappers
  import opened Seqs
  import Text
  import opened Browser

  /** `{ ...item, quantity: Math.max(1, item.quantity + delta) }` on the lines with that id. */
  function Bumped(id: nat, delta: int): CartItem -> CartItem
  {
    (it: CartItem) => if it.Id() == id then it.(quantity := if it.quantity + delta > 1 then it.quantity + delta else 1) else it
  }

  /** `updateQuantity`: only the lines with that id change, to max(1, quantity + delta). */
  function QuantityUpdated(cart: seq<CartItem>, id: nat, delta: int): (r: seq<CartItem>)
    ensures |r| == |cart|
    ensures forall i :: 0 <= i < |cart| && cart[i].Id() != id ==> r[i] == cart[i]
    ensures forall i :: 0 <= i < |cart| && cart[i].Id() == id ==>
              && r[i].product == cart[i].product
              && r[i].quantity >= 1
              && r[i].quantity >= cart[i].quantity + delta
              && (r[i].quantity == 1 || r[i].quantity == cart[i].quantity + delta)
  {
    Map(cart, Bumped(id, delta))
  }

  /** However the buttons are pressed, a line's quantity never drops below 1 once it is at least 1. */
  lemma QuantitiesStayPositive(cart: seq<CartItem>, id: nat, delta: int)
    requires forall i :: 0 <= i < |cart| ==> cart[i].quantity >= 1
    ensures forall i :: 0 <= i < |cart| ==> QuantityUpdated(cart, id, delta)[i].quantity >= 1
  {
  }

  function KeepsOtherId(id: nat): CartItem -> bool
  {
    (it: CartItem) => it.Id() != id
  }

  /** `removeItem`: drop the lines with that id, keeping the rest. */
  function WithoutItem(cart: seq<CartItem>, id: nat): (r: seq<CartItem>)
    ensures forall it :: it in r <==> it in cart && it.Id() != id
    ensures |r| <= |cart|
  {
    Filter(cart, KeepsOtherId(id))
  }

  /** Removal keeps the remaining lines in their order: it works piece by piece on a split cart. */
  lemma WithoutItemKeepsOrder(front: seq<CartItem>, back: seq<CartItem>, id: nat)
    ensures WithoutItem(front + back, id) == WithoutItem(front, id) + WithoutItem(back, id)
  {
    FilterConcat(front, back, KeepsOtherId(id));
  }

  /** `applyPromo`: the code, upper-cased, selects the discount rate; anything else resets it to 0. */
  function PromoDiscount(code: string): (d: real)
    ensures d == 0.0 || d == 0.1 || d == 0.2
    ensures d == 0.1 <==> Text.Upper(code) == "SAVE10"
    ensures d == 0.2 <==> Text.Upper(code) == "SAVE20"
  {
    var c := Text.Upper(code);
    if c == "SAVE10" then 0.1
    else if c == "SAVE20" then 0.2
    else 0.0
  }

  /** The code is matched without regard to case. */
  lemma PromoIgnoresCase(code: string)
    ensures PromoDiscount(Text.Lower(code)) == PromoDiscount(code)
  {
    Text.UpperOfLower(code);
  }

  function ItemAmount(it: CartItem): real
  {
    it.product.price * it.quantity as real
  }

  /** `subtotal`: Σ price × quantity. */
  function Subtotal(cart: seq<CartItem>): (r: real)
    ensures cart == [] ==> r == 0.0
    ensures (forall i :: 0 <= i < |cart| ==> cart[i].product.price >= 0.0 && cart[i].quantity >= 0) ==> r >= 0.0
  {
    var r := Sum(cart, ItemAmount);
    assert (forall i :: 0 <= i < |cart| ==> cart[i].product.price >= 0.0 && cart[i].quantity >= 0) ==> r >= 0.0 by {
      if forall i :: 0 <= i < |cart| ==> cart[i].product.price >= 0.0 && cart[i].quantity >= 0 {
        SumNonNegative(cart, ItemAmount);
      }
    }
    r
  }

  /** `shipping`: free strictly above 100, otherwise 10. */
  function Shipping(subtotal: real): (s: real)
    ensures subtotal > 100.0 ==> s == 0.0
    ensures subtotal <= 100.0 ==> s == 10.0
  {
    if subtotal > 100.0 then 0.0 else 10.0
  }

  /** A rate between 0 and 1 takes off at most the whole amount. */
  lemma DiscountWithin(s: real, d: real)
    requires s >= 0.0 && 0.0 <= d <= 1.0
    ensures 0.0 <= s * d <= s
  {
    assert s - s * d == s * (1.0 - d);
    assert s * (1.0 - d) >= 0.0;
  }

  /** `total`: subtotal less the discount, plus shipping. */
  function Total(cart: seq<CartItem>, discount: real): (t: real)
    ensures discount == 0.0 ==> t == Subtotal(cart) + Shipping(Subtotal(cart))
    ensures 0.0 <= discount <= 1.0 && Subtotal(cart) >= 0.0 ==>
              Shipping(Subtotal(cart)) <= t <= Subtotal(cart) + Shipping(Subtotal(cart))
  {
    var s := Subtotal(cart);
    assert 0.0 <= discount <= 1.0 && s >= 0.0 ==> 0.0 <= s * discount <= s by {
      if 0.0 <= discount <= 1.0 && s >= 0.0 {
        DiscountWithin(s, discount);
      }
    }
    s - s * discount + Shipping(s)
  }

  /**
   * With non-negative prices and quantities and a promo rate, the total is
   * at least the shipping charge and at most subtotal plus shipping.
   */
  lemma TotalBounds(cart: seq<CartItem>, code: string)
    requires forall i :: 0 <= i < |cart| ==> cart[i].product.price >= 0.0 && cart[i].quantity >= 0
    ensures var t := Total(cart, PromoDiscount(code));
            Shipping(Subtotal(cart)) <= t <= Subtotal(cart) + Shipping(Subtotal(cart))
  {
  }

  /** The `{product_id, quantity}` pair `placeOrder` sends for a line. */
  datatype OrderLine = OrderLine(productId: nat, quantity: int)

  function ToOrderLine(it: CartItem): OrderLine
  {
    OrderLine(it.Id(), it.quantity)
  }

  /** The request body of `placeOrder`: one pair per line, in cart order. */
  function OrderLines(cart: seq<CartItem>): (r: seq<OrderLine>)
    ensures |r| == |cart|
    ensures forall i :: 0 <= i < |cart| ==> r[i].productId == cart[i].Id() && r[i].quantity == cart[i].quantity
  {
    Map(cart, ToOrderLine)
  }

  /** The cart page's state; `location` is where `navigate` last went. */
  class CartView {
    var cart: seq<CartItem>
    var promoCode: string
    var discount: real
    var loading: bool
    var location: string
    const storage: Storage

    constructor (storage: Storage)
      ensures this.storage == storage
      ensures cart == [] && promoCode == "" && discount == 0.0 && !loading && location == ""
    {
      this.storage := storage;
      cart := [];
      promoCode := "";
      discount := 0.0;
      loading := false;
      location := "";
    }

    /** `loadCart`: take the stored cart when there is one. */
    method LoadCart()
      modifies this
      ensures storage.cart.Some? ==> cart == storage.cart.value
      ensures storage.cart.None? ==> cart == old(cart)
      ensures promoCode == old(promoCode) && discount == old(discount)
      ensures loading == old(loading) && location == old(location)
    {
      if storage.cart.Some? {
        cart := storage.cart.value;
      }
    }

    /** `updateQuantity`: update the lines in state and in storage alike. */
    method UpdateQuantity(id: nat, delta: int)
      modifies this, storage
      ensures cart == QuantityUpdated(old(cart), id, delta) && storage.cart == Some(cart)
      ensures storage.token == old(storage.token) && storage.user == old(storage.user)
      ensures promoCode == old(promoCode) && discount == old(discount)
      ensures loading == old(loading) && location == old(location)
    {
      cart := QuantityUpdated(cart, id, delta);
      storage.cart := Some(cart);
    }

    /** `removeItem`: drop the lines in state and in storage alike. */
    method RemoveItem(id: nat)
      modifies this, storage
      ensures cart == WithoutItem(old(cart), id) && storage.cart == Some(cart)
      ensures storage.token == old(storage.token) && storage.user == old(storage.user)
      ensures promoCode == old(promoCode) && discount == old(discount)
      ensures loading == old(loading) && location == old(location)
    {
      cart := WithoutItem(cart, id);
      storage.cart := Some(cart);
    }

    /** `applyPromo`: set the discount rate; an unknown code raises the alert and resets it. */
    method ApplyPromo() returns (alerted: bool)
      modifies this
      ensures discount == PromoDiscount(promoCode)
      ensures alerted <==> discount == 0.0
      ensures cart == old(cart) && promoCode == old(promoCode)
      ensures loading == old(loading) && location == old(location)
    {
      var code := Text.Upper(promoCode);
      if code == "SAVE10" {
        discount := 0.1;
        alerted := false;
      } else if code == "SAVE20" {
        discount := 0.2;
        alerted := false;
      } else {
        alerted := true;
        discount := 0.0;
      }
    }

    /**
     * `placeOrder`. Without a token nothing is sent and the page goes to
     * the login. Otherwise one pair per line is sent; `accepted` is the
     * server's answer, and only an accepted order clears the cart, in state
     * and in storage.
     */
    method PlaceOrder(accepted: bool) returns (sent: Option<seq<OrderLine>>)
      modifies this, storage
      ensures storage.token == old(storage.token) && storage.user == old(storage.user)
      ensures !Truthy(storage.token) ==>
                && sent.None? && location == "/login"
                && cart == old(cart) && storage.cart == old(storage.cart) && loading == old(loading)
      ensures Truthy(storage.token) ==> sent == Some(OrderLines(old(cart))) && !loading
      ensures Truthy(storage.token) && accepted ==> cart == [] && storage.cart.None? && location == "/orders"
      ensures Truthy(storage.token) && !accepted ==>
                cart == old(cart) && storage.cart == old(storage.cart) && location == old(location)
      ensures promoCode == old(promoCode) && discount == old(discount)
    {
      if !Truthy(storage.token) {
        location := "/login";
        return None;
      }
      loading := true;
      sent := Some(OrderLines(cart));
      if accepted {
        storage.cart := None;
        cart := [];
        location := "/orders";
      }
      loading := false;
    }
  }
}
