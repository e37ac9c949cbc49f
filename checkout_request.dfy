/**
 * How the cart page's `placeOrder` body meets `OrderController::store`'s
 * validation: the `{product_id, quantity}` pairs, JSON-decoded, are the
 * `items` array the server checks.
 */
module CheckoutRequest {
  import opened Wrappers
  import opened Http
  import opened Schema
  import opened Browser
  import Cart
  import OrderController

  /** One pair as the server decodes it: both fields are JSON numbers. */
  function Decoded(l: Cart.OrderLine): OrderController.LineInput
  {
    OrderController.LineInput(Some(Num(l.productId as real)), Some(Num(l.quantity as real)))
  }

  function DecodedItems(lines: seq<Cart.OrderLine>): (r: seq<OrderController.LineInput>)
    ensures |r| == |lines|
    ensures forall i :: 0 <= i < |lines| ==> r[i] == Decoded(lines[i])
  {
    seq(|lines|, i requires 0 <= i < |lines| => Decoded(lines[i]))
  }

  /**
   * A non-empty cart whose lines name products the server knows, with
   * quantities of at least one, passes validation line for line: the server
   * sees the same product ids and quantities in the same order.
   */
  lemma CartBodyValidates(products: OrderController.Products, cart: seq<CartItem>)
    requires cart != []
    requires forall i :: 0 <= i < |cart| ==> cart[i].Id() in products && cart[i].quantity >= 1
    ensures var r := OrderController.ParseItems(products, Some(DecodedItems(Cart.OrderLines(cart))));
            && r.Ok? && |r.value| == |cart|
            && forall i :: 0 <= i < |cart| ==> r.value[i] == OrderController.Line(cart[i].Id(), cart[i].quantity)
  {
    var items := DecodedItems(Cart.OrderLines(cart));
    forall i | 0 <= i < |items|
      ensures OrderController.ValidLine(products, items[i])
      ensures OrderController.ToLine(products, items[i]) == OrderController.Line(cart[i].Id(), cart[i].quantity)
    {
      assert (cart[i].Id() as real).Floor == cart[i].Id();
      assert (cart[i].quantity as real).Floor == cart[i].quantity;
    }
  }

  /**
   * An empty item list fails validation on the server; the page never sends
   * one, since an empty cart shows no order button.
   */
  lemma EmptyCartIsRejected(products: OrderController.Products)
    ensures OrderController.ParseItems(products, Some(DecodedItems(Cart.OrderLines([])))) == Err(Invalid)
  {
  }

  /** A line whose product has since been deleted makes the whole order fail validation. */
  lemma VanishedProductIsRejected(products: OrderController.Products, cart: seq<CartItem>, k: nat)
    requires k < |cart| && cart[k].Id() !in products
    ensures OrderController.ParseItems(products, Some(DecodedItems(Cart.OrderLines(cart)))) == Err(Invalid)
  {
    var items := DecodedItems(Cart.OrderLines(cart));
    assert (cart[k].Id() as real).Floor == cart[k].Id();
    assert !OrderController.ValidLine(products, items[k]);
  }
}
