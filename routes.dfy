/**
 * The API route table of `routes/api.php` as a function from a request
 * (method and path segments) to the action it reaches and the middleware
 * stack guarding it. Nested `Route::middleware(...)->group(...)` blocks
 * become the guard stacks below; `prefix('admin')` and `prefix('seller')`
 * become the first path segment. The `auth:api` guard and the role
 * middleware are taken as given: `auth` admits any signed-in principal,
 * and `role:a,b` admits exactly the listed roles.
 */
module Routes {
  import opened Wrappers
  import opened Schema

  datatype Method = Get | Post | Put | Delete

  datatype Guard = Cors | Auth | RoleIn(roles: set<Role>)

  /** A matched route: the controller action and its middleware, outermost first. */
  datatype Route = Route(action: string, guards: seq<Guard>)

  /** Who is asking: `None` is an anonymous request. */
  type Principal = Option<Role>

  predicate GuardAdmits(g: Guard, p: Principal)
  {
    match g
    case Cors => true
    case Auth => p.Some?
    case RoleIn(roles) => p.Some? && p.value in roles
  }

  /** Every middleware of the stack lets the principal through. */
  predicate Admits(guards: seq<Guard>, p: Principal)
  {
    forall g :: g in guards ==> GuardAdmits(g, p)
  }

  // The guard stacks of the nested groups.
  const CorsOnly: seq<Guard> := [Cors]
  const SignedIn: seq<Guard> := CorsOnly + [Auth]
  const AdminOnly: seq<Guard> := SignedIn + [RoleIn({Admin})]
  const SellerOrAdmin: seq<Guard> := SignedIn + [RoleIn({Seller, Admin})]

  /** A `{id}` path parameter: any non-empty segment. */
  predicate Param(segment: string)
  {
    segment != ""
  }

  /** The routes of the `prefix('admin')` group, by the path after `admin`. */
  function AdminAction(m: Method, rest: seq<string>): Option<string>
  {
    if m == Get && rest == ["dashboard"] then Some("AdminController@dashboard")
    else if m == Get && rest == ["users"] then Some("AdminController@getUsers")
    else if m == Put && |rest| == 3 && rest[0] == "users" && Param(rest[1]) && rest[2] == "role" then Some("AdminController@updateUserRole")
    else if m == Delete && |rest| == 2 && rest[0] == "users" && Param(rest[1]) then Some("AdminController@deleteUser")
    else if m == Get && rest == ["products"] then Some("AdminController@getAllProducts")
    else if m == Put && |rest| == 2 && rest[0] == "products" && Param(rest[1]) then Some("AdminController@updateProduct")
    else if m == Delete && |rest| == 2 && rest[0] == "products" && Param(rest[1]) then Some("AdminController@deleteProduct")
    else if m == Get && rest == ["orders"] then Some("AdminController@getAllOrders")
    else if m == Put && |rest| == 3 && rest[0] == "orders" && Param(rest[1]) && rest[2] == "status" then Some("AdminController@updateOrderStatus")
    else None
  }

  /** The routes of the `prefix('seller')` group, by the path after `seller`. */
  function SellerAction(m: Method, rest: seq<string>): Option<string>
  {
    if m == Get && rest == ["dashboard"] then Some("SellerController@dashboard")
    else if m == Get && rest == ["products"] then Some("SellerController@getProducts")
    else if m == Post && rest == ["products"] then Some("SellerController@createProduct")
    else if m == Put && |rest| == 2 && rest[0] == "products" && Param(rest[1]) then Some("SellerController@updateProduct")
    else if m == Delete && |rest| == 2 && rest[0] == "products" && Param(rest[1]) then Some("SellerController@deleteProduct")
    else if m == Get && rest == ["sales"] then Some("SellerController@getSales")
    else None
  }

  /** The routes of `AuthController`, by the path after `auth`. */
  function AuthRoute(m: Method, rest: seq<string>): Option<Route>
  {
    if m == Post && rest == ["register"] then Some(Route("AuthController@register", CorsOnly))
    else if m == Post && rest == ["login"] then Some(Route("AuthController@login", CorsOnly))
    else if m == Post && rest == ["logout"] then Some(Route("AuthController@logout", SignedIn))
    else if m == Get && rest == ["profile"] then Some(Route("AuthController@profile", SignedIn))
    else None
  }

  /**
   * The `products` routes, by the path after `products`: the writes of the
   * admin group and the public reads.
   */
  function ProductsRoute(m: Method, rest: seq<string>): Option<Route>
  {
    if m == Post && rest == [] then Some(Route("ProductController@store", AdminOnly))
    else if m == Put && |rest| == 1 && Param(rest[0]) then Some(Route("ProductController@update", AdminOnly))
    else if m == Delete && |rest| == 1 && Param(rest[0]) then Some(Route("ProductController@destroy", AdminOnly))
    else if m == Get && rest == [] then Some(Route("ProductController@index", CorsOnly))
    else if m == Get && |rest| == 1 && Param(rest[0]) then Some(Route("ProductController@show", CorsOnly))
    else None
  }

  /** The routes of `OrderController`, by the path after `orders`. */
  function OrdersAction(m: Method, rest: seq<string>): Option<string>
  {
    if m == Get && rest == [] then Some("OrderController@index")
    else if m == Get && |rest| == 1 && Param(rest[0]) then Some("OrderController@show")
    else if m == Post && rest == [] then Some("OrderController@store")
    else if m == Post && |rest| == 2 && Param(rest[0]) && rest[1] == "pay" then Some("OrderController@pay")
    else None
  }

  /** The routes of `PaymentController`, by the path after `payment`. */
  function PaymentRoute(m: Method, rest: seq<string>): Option<Route>
  {
    if m == Post && rest == ["create-checkout-session"] then Some(Route("PaymentController@createCheckoutSession", SignedIn))
    else if m == Post && rest == ["webhook"] then Some(Route("PaymentController@webhook", CorsOnly))
    else None
  }

  function Guarded(action: Option<string>, guards: seq<Guard>): Option<Route>
  {
    match action
    case None => None
    case Some(a) => Some(Route(a, guards))
  }

  /**
   * The route a request reaches, if any, chosen by the first path segment.
   * Every route sits inside the `cors` group, so every guard stack starts
   * with `Cors`.
   */
  function Resolve(m: Method, path: seq<string>): (r: Option<Route>)
    ensures r.Some? ==> |r.value.guards| > 0 && r.value.guards[0] == Cors
    ensures r.Some? ==> r.value.guards in {CorsOnly, SignedIn, AdminOnly, SellerOrAdmin}
  {
    if path == [] then None
    else if path[0] == "admin" then Guarded(AdminAction(m, path[1..]), AdminOnly)
    else if path[0] == "seller" then Guarded(SellerAction(m, path[1..]), SellerOrAdmin)
    else if path[0] == "auth" then AuthRoute(m, path[1..])
    else if path[0] == "products" then ProductsRoute(m, path[1..])
    else if path[0] == "orders" then Guarded(OrdersAction(m, path[1..]), SignedIn)
    else if path[0] == "payment" then PaymentRoute(m, path[1..])
    else None
  }

  /** The request reaches a route, and the principal passes all of its guards. */
  predicate Allowed(m: Method, path: seq<string>, p: Principal)
  {
    Resolve(m, path).Some? && Admits(Resolve(m, path).value.guards, p)
  }

  /** The guard stacks, summarised: who each one admits. */
  lemma GuardStacks(p: Principal)
    ensures Admits(CorsOnly, p)
    ensures Admits(SignedIn, p) <==> p.Some?
    ensures Admits(AdminOnly, p) <==> p == Some(Admin)
    ensures Admits(SellerOrAdmin, p) <==> p == Some(Seller) || p == Some(Admin)
  {
    assert Auth in SignedIn && Auth in AdminOnly && Auth in SellerOrAdmin;
    assert RoleIn({Admin}) in AdminOnly;
    assert RoleIn({Seller, Admin}) in SellerOrAdmin;
  }

  /** Registering and logging in need no authentication. */
  lemma AuthEntryPointsArePublic(p: Principal)
    ensures Allowed(Post, ["auth", "register"], p)
    ensures Allowed(Post, ["auth", "login"], p)
  {
    GuardStacks(p);
  }

  /** Creating, updating and deleting products through the resource routes is for admins only. */
  lemma ProductWritesNeedAdmin(id: string, p: Principal)
    requires Param(id)
    ensures Allowed(Post, ["products"], p) <==> p == Some(Admin)
    ensures Allowed(Put, ["products", id], p) <==> p == Some(Admin)
    ensures Allowed(Delete, ["products", id], p) <==> p == Some(Admin)
  {
    GuardStacks(p);
  }

  /** The product list and a single product are public. */
  lemma ProductReadsArePublic(id: string, p: Principal)
    requires Param(id)
    ensures Allowed(Get, ["products"], p)
    ensures Allowed(Get, ["products", id], p)
  {
    GuardStacks(p);
  }

  /** The order routes need a signed-in user of any role. */
  lemma OrderRoutesNeedSignIn(id: string, p: Principal)
    requires Param(id)
    ensures Allowed(Get, ["orders"], p) <==> p.Some?
    ensures Allowed(Get, ["orders", id], p) <==> p.Some?
    ensures Allowed(Post, ["orders"], p) <==> p.Some?
    ensures Allowed(Post, ["orders", id, "pay"], p) <==> p.Some?
  {
    GuardStacks(p);
    assert ["orders", id][1..] == [id] && ["orders", id, "pay"][1..] == [id, "pay"];
    assert Resolve(Get, ["orders"]).value.guards == SignedIn;
    assert Resolve(Get, ["orders", id]).value.guards == SignedIn;
    assert Resolve(Post, ["orders"]).value.guards == SignedIn;
    assert Resolve(Post, ["orders", id, "pay"]).value.guards == SignedIn;
  }

  /** Creating a checkout session needs a signed-in user of any role. */
  lemma CheckoutNeedsSignIn(p: Principal)
    ensures Allowed(Post, ["payment", "create-checkout-session"], p) <==> p.Some?
  {
    GuardStacks(p);
  }

  /** Every route under `admin/` is for admins only. */
  lemma AdminPrefixNeedsAdmin(m: Method, path: seq<string>, p: Principal)
    requires |path| > 0 && path[0] == "admin" && Resolve(m, path).Some?
    ensures Allowed(m, path, p) <==> p == Some(Admin)
  {
    GuardStacks(p);
  }

  /** Every route under `seller/` admits sellers and admins, and nobody else. */
  lemma SellerPrefixAdmitsSellerOrAdmin(m: Method, path: seq<string>, p: Principal)
    requires |path| > 0 && path[0] == "seller" && Resolve(m, path).Some?
    ensures Allowed(m, path, p) <==> p == Some(Seller) || p == Some(Admin)
  {
    GuardStacks(p);
  }

  /** The payment webhook needs no authentication, since the provider cannot sign in. */
  lemma WebhookIsPublic()
    ensures Allowed(Post, ["payment", "webhook"], None)
  {
    GuardStacks(None);
  }

  /** A role guard only ever follows the authentication guard: no route admits an anonymous request past a role check. */
  lemma RoleGuardImpliesSignIn(m: Method, path: seq<string>)
    requires Resolve(m, path).Some?
    requires exists roles :: RoleIn(roles) in Resolve(m, path).value.guards
    ensures Auth in Resolve(m, path).value.guards
    ensures !Allowed(m, path, None)
  {
    var r := Resolve(m, path).value;
    var roles :| RoleIn(roles) in r.guards;
    assert r.guards == AdminOnly || r.guards == SellerOrAdmin;
    assert Auth in r.guards;
  }
}
