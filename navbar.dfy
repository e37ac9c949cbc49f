/**
 * The navigation bar: the cart badge count, which links it shows for the
 * stored token and role, and logging out.
 */
module Navbar {
  import opened Wrappers
  import opened Seqs
  import opened Schema
  import opened Browser
  import ProductList
  import Routes

  /** `updateCartCount`'s sum: the quantities of the stored cart, 0 when none is stored. */
  function CartCount(saved: Option<seq<CartItem>>): int
  {
    TotalQuantity(if saved.Some? then saved.value else [])
  }

  /** When every line holds at least one unit, the count is at least the number of lines. */
  lemma {:induction false} CountCoversLines(cart: seq<CartItem>)
    requires forall i :: 0 <= i < |cart| ==> cart[i].quantity >= 1
    ensures TotalQuantity(cart) >= |cart|
  {
    if cart != [] {
      CountCoversLines(cart[1..]);
    }
  }

  /** The badge (`cartCount > 0`) shows exactly when a cart with positive quantities has a line. */
  lemma BadgeShowsForNonEmptyCart(cart: seq<CartItem>)
    requires forall i :: 0 <= i < |cart| ==> cart[i].quantity >= 1
    ensures CartCount(Some(cart)) > 0 <==> cart != []
  {
    CountCoversLines(cart);
  }

  /** After `addToCart` on a cart with one line per product, the badge goes up by exactly one. */
  lemma AddToCartBumpsCount(saved: Option<seq<CartItem>>, p: Listing)
    requires UniqueIds(if saved.Some? then saved.value else [])
    ensures CartCount(Some(ProductList.AddedToCart(if saved.Some? then saved.value else [], p))) == CartCount(saved) + 1
  {
    ProductList.AddRaisesTotalByOne(if saved.Some? then saved.value else [], p);
  }

  /** The role read from the stored `user`, or `null` when there is none. */
  function RoleOf(user: Option<UserRecord>): Option<string>
  {
    if user.Some? then Some(user.value.role) else None
  }

  /** The admin link: a token and the role `admin`. */
  predicate ShowAdminLink(token: Option<string>, role: Option<string>)
  {
    Truthy(token) && role == Some("admin")
  }

  /** The seller link: a token and the role `seller` or `admin`. */
  predicate ShowSellerLink(token: Option<string>, role: Option<string>)
  {
    Truthy(token) && (role == Some("seller") || role == Some("admin"))
  }

  /** The cart and orders links: a token. */
  predicate ShowCartLinks(token: Option<string>)
  {
    Truthy(token)
  }

  /** Every link the bar shows for a role needs a token, and the admin link implies the seller link. */
  lemma LinksNeedToken(token: Option<string>, role: Option<string>)
    ensures ShowAdminLink(token, role) ==> ShowSellerLink(token, role)
    ensures ShowSellerLink(token, role) ==> ShowCartLinks(token)
    ensures !Truthy(token) ==> !ShowAdminLink(token, role) && !ShowSellerLink(token, role) && !ShowCartLinks(token)
  {
  }

  /**
   * For a signed-in user whose stored role names a role, the bar shows the
   * admin and seller links to exactly the principals the `admin/` and
   * `seller/` dashboard routes admit, and the cart links to anyone the order
   * routes admit.
   */
  lemma LinksMatchRouteGuards(token: Option<string>, r: Role)
    requires Truthy(token)
    ensures ShowAdminLink(token, Some(RoleName(r))) <==> Routes.Allowed(Routes.Get, ["admin", "dashboard"], Some(r))
    ensures ShowSellerLink(token, Some(RoleName(r))) <==> Routes.Allowed(Routes.Get, ["seller", "dashboard"], Some(r))
    ensures ShowCartLinks(token) <==> Routes.Allowed(Routes.Get, ["orders"], Some(r))
  {
    Routes.GuardStacks(Some(r));
  }

  /** The bar's state; `location` is where `navigate` last went. */
  class NavbarView {
    var cartCount: int
    var userRole: Option<string>
    var location: string
    const storage: Storage

    /** Mounting: count the cart and read the role from the stored user. */
    constructor (storage: Storage)
      ensures this.storage == storage
      ensures cartCount == TotalQuantity(storage.SavedCart())
      ensures storage.cart.None? ==> cartCount == 0
      ensures userRole == RoleOf(storage.user)
      ensures location == ""
    {
      this.storage := storage;
      cartCount := CartCount(storage.cart);
      userRole := RoleOf(storage.user);
      location := "";
    }

    /** `updateCartCount`, also run on every `cartUpdated` event. */
    method UpdateCartCount()
      modifies this
      ensures cartCount == TotalQuantity(storage.SavedCart())
      ensures storage.cart.None? ==> cartCount == 0
      ensures userRole == old(userRole) && location == old(location)
    {
      var saved := storage.SavedCart();
      cartCount := SumInt(saved, ItemQuantity);
    }

    /** `handleLogout`: forget the token and user, clear the role and go to the login page; the cart stays. */
    method HandleLogout()
      modifies this, storage
      ensures storage.token.None? && storage.user.None? && storage.cart == old(storage.cart)
      ensures userRole.None? && location == "/login"
      ensures cartCount == old(cartCount)
      ensures !ShowAdminLink(storage.token, userRole) && !ShowSellerLink(storage.token, userRole) && !ShowCartLinks(storage.token)
    {
      storage.token := None;
      storage.user := None;
      userRole := None;
      location := "/login";
    }
  }
}
