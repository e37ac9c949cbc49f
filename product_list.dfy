/**
 * The catalogue page: the search filter, the in-place sort of the filtered
 * list, and `addToCart`'s merge-or-append on the stored cart.
 */
module ProductList {
  import opened Wrappers
  import opened Seqs
  import opened Text
  import opened Browser

  // ---------------------------------------------------------------- search

  /**
   * The filter as written: the name test, then `description.toLowerCase()`.
   * `None` is the `TypeError` thrown when the description is null and the
   * name did not already match.
   */
  function MatchesAsWritten(p: Listing, term: string): (r: Option<bool>)
    ensures r.None? <==> p.description.None? && !Contains(Lower(p.name), Lower(term))
  {
    if Contains(Lower(p.name), Lower(term)) then Some(true)
    else if p.description.None? then None
    else Some(Contains(Lower(p.description.value), Lower(term)))
  }

  /** The whole `filter` as written: it throws as soon as one product throws. */
  function SearchAsWritten(products: seq<Listing>, term: string): (r: Option<seq<Listing>>)
    ensures r.None? <==> exists i :: 0 <= i < |products| && MatchesAsWritten(products[i], term).None?
  {
    if products == [] then Some([])
    else match MatchesAsWritten(products[0], term)
      case None => None
      case Some(keep) =>
        match SearchAsWritten(products[1..], term)
        case None =>
          var i :| 0 <= i < |products[1..]| && MatchesAsWritten(products[1..][i], term).None?;
          assert MatchesAsWritten(products[i + 1], term).None?;
          None
        case Some(rest) =>
          assert forall i :: 1 <= i < |products| ==> products[i] == products[1..][i - 1];
          Some(if keep then [products[0]] + rest else rest)
  }

  /** A product whose description is null breaks the search for any term its name does not contain. */
  lemma NullDescriptionBreaksSearch()
    ensures var mug := Listing(1, "Mug", None, 5.0, 3);
            SearchAsWritten([mug], "tea").None?
  {
    var mug := Listing(1, "Mug", None, 5.0, 3);
    assert Lower("Mug") == "mug";
    assert Lower("tea") == "tea";
    assert !Contains("mug", "tea") by {
      assert !StartsWith("mug", "tea");
      assert !StartsWith("ug", "tea");
      assert !StartsWith("g", "tea");
      assert !StartsWith("", "tea");
      assert "mug"[1..] == "ug" && "ug"[1..] == "g" && "g"[1..] == "";
    }
    assert MatchesAsWritten(mug, "tea").None?;
  }

  /**
   * The search as intended: the name or, when there is one, the
   * description contains the term, ignoring case.
   */
  predicate Matches(p: Listing, term: string)
  {
    || Contains(Lower(p.name), Lower(term))
    || (p.description.Some? && Contains(Lower(p.description.value), Lower(term)))
  }

  function MatchesTerm(term: string): Listing -> bool
  {
    (p: Listing) => Matches(p, term)
  }

  /** The filtered list: exactly the products that match, a subset of the products, in their order. */
  function Search(products: seq<Listing>, term: string): (r: seq<Listing>)
    ensures forall p :: p in r <==> p in products && Matches(p, term)
    ensures |r| <= |products|
  {
    Filter(products, MatchesTerm(term))
  }

  /** Wherever the written filter does not throw, it computes the intended one. */
  lemma {:induction false} SearchAgreesWhenNoThrow(products: seq<Listing>, term: string)
    requires SearchAsWritten(products, term).Some?
    ensures SearchAsWritten(products, term).value == Search(products, term)
  {
    if products != [] {
      SearchAgreesWhenNoThrow(products[1..], term);
    }
  }

  /** An empty search term matches every product, so nothing throws and the list is kept whole. */
  lemma {:induction false} EmptyTermKeepsAll(products: seq<Listing>)
    ensures SearchAsWritten(products, "") == Some(products)
    ensures Search(products, "") == products
  {
    if products != [] {
      ContainsEmpty(Lower(products[0].name));
      assert Lower("") == "";
      assert MatchesAsWritten(products[0], "") == Some(true);
      EmptyTermKeepsAll(products[1..]);
      assert [products[0]] + products[1..] == products;
    }
  }

  // ------------------------------------------------------------------ sort

  /** A comparator's "may come first" relation: total and transitive. */
  ghost predicate TotalPreorder(le: (Listing, Listing) -> bool)
  {
    && (forall a, b :: le(a, b) || le(b, a))
    && (forall a, b, c :: le(a, b) && le(b, c) ==> le(a, c))
  }

  predicate Sorted(s: seq<Listing>, le: (Listing, Listing) -> bool)
  {
    forall i, j :: 0 <= i < j < |s| ==> le(s[i], s[j])
  }

  /** The `sortBy` choices; any other value sorts by name. */
  datatype SortMode = PriceLow | PriceHigh | ByName

  /**
   * The comparator of each mode, as "the comparator returns at most 0".
   * `localeCompare` is locale-dependent and is supplied as `nameLe`.
   */
  function ComesFirst(mode: SortMode, nameLe: (Listing, Listing) -> bool): (Listing, Listing) -> bool
  {
    match mode
    case PriceLow => (a: Listing, b: Listing) => a.price - b.price <= 0.0
    case PriceHigh => (a: Listing, b: Listing) => b.price - a.price <= 0.0
    case ByName => nameLe
  }

  lemma ComesFirstIsPreorder(mode: SortMode, nameLe: (Listing, Listing) -> bool)
    requires TotalPreorder(nameLe)
    ensures TotalPreorder(ComesFirst(mode, nameLe))
  {
  }

  /** Sorted by `price-low` means prices never decrease; by `price-high`, never increase. */
  lemma PriceOrders(s: seq<Listing>, nameLe: (Listing, Listing) -> bool)
    ensures Sorted(s, ComesFirst(PriceLow, nameLe)) <==> forall i, j :: 0 <= i < j < |s| ==> s[i].price <= s[j].price
    ensures Sorted(s, ComesFirst(PriceHigh, nameLe)) <==> forall i, j :: 0 <= i < j < |s| ==> s[i].price >= s[j].price
  {
  }

  /** The entries the comparator ties with `x`: neither comes before the other. */
  function TiedWith(le: (Listing, Listing) -> bool, x: Listing): Listing -> bool
  {
    (y: Listing) => le(x, y) && le(y, x)
  }

  /**
   * Stability: every class of tied entries appears in `s` in the same order
   * as in `t`, which is what a stable sort (JavaScript's `sort`) promises.
   */
  ghost predicate KeepsTies(s: seq<Listing>, t: seq<Listing>, le: (Listing, Listing) -> bool)
  {
    forall x :: Filter(s, TiedWith(le, x)) == Filter(t, TiedWith(le, x))
  }

  lemma KeepsTiesTrans(s: seq<Listing>, t: seq<Listing>, u: seq<Listing>, le: (Listing, Listing) -> bool)
    requires KeepsTies(s, t, le) && KeepsTies(t, u, le)
    ensures KeepsTies(s, u, le)
  {
  }

  /** Swapping two neighbours that are out of order never reorders a class of tied entries. */
  lemma SwapKeepsTies(s: seq<Listing>, j: nat, le: (Listing, Listing) -> bool)
    requires TotalPreorder(le)
    requires 0 < j < |s| && !le(s[j - 1], s[j])
    ensures KeepsTies(s[j - 1 := s[j]][j := s[j - 1]], s, le)
  {
    var t := s[j - 1 := s[j]][j := s[j - 1]];
    var front, back := s[..j - 1], s[j + 1..];
    assert s == front + [s[j - 1], s[j]] + back;
    assert t == front + [s[j], s[j - 1]] + back;
    forall x
      ensures Filter(t, TiedWith(le, x)) == Filter(s, TiedWith(le, x))
    {
      var tied := TiedWith(le, x);
      assert !(tied(s[j - 1]) && tied(s[j]));
      FilterConcat(front + [s[j - 1], s[j]], back, tied);
      FilterConcat(front, [s[j - 1], s[j]], tied);
      FilterConcat(front + [s[j], s[j - 1]], back, tied);
      FilterConcat(front, [s[j], s[j - 1]], tied);
      assert [s[j - 1], s[j]][1..] == [s[j]] && [s[j], s[j - 1]][1..] == [s[j - 1]];
    }
  }

  /** In the price modes two products tie exactly when their prices are equal. */
  lemma PriceTies(x: Listing, y: Listing, nameLe: (Listing, Listing) -> bool)
    ensures TiedWith(ComesFirst(PriceLow, nameLe), x)(y) <==> x.price == y.price
    ensures TiedWith(ComesFirst(PriceHigh, nameLe), x)(y) <==> x.price == y.price
  {
  }

  /**
   * Mid-insertion: `s[j]` is the entry being inserted; every other pair of
   * `s[..i + 1]` is in order, and `s[j]` may come before everything after it.
   */
  ghost predicate Inserting(s: seq<Listing>, i: nat, j: nat, le: (Listing, Listing) -> bool)
  {
    && j <= i < |s|
    && (forall k, l :: 0 <= k < l <= i && k != j && l != j ==> le(s[k], s[l]))
    && (forall l :: j < l <= i ==> le(s[j], s[l]))
  }

  lemma StartInserting(s: seq<Listing>, i: nat, le: (Listing, Listing) -> bool)
    requires i < |s| && Sorted(s[..i], le)
    ensures Inserting(s, i, i, le)
  {
    forall k, l | 0 <= k < l <= i && k != i && l != i
      ensures le(s[k], s[l])
    {
      assert s[k] == s[..i][k] && s[l] == s[..i][l];
    }
  }

  lemma DoneInserting(s: seq<Listing>, i: nat, j: nat, le: (Listing, Listing) -> bool)
    requires TotalPreorder(le)
    requires Inserting(s, i, j, le) && (j == 0 || le(s[j - 1], s[j]))
    ensures Sorted(s[..i + 1], le)
  {
    forall k, l | 0 <= k < l < i + 1
      ensures le(s[k], s[l])
    {
      if l == j && k < j - 1 {
        assert le(s[k], s[j - 1]);
      }
    }
  }

  /** One swap of `Insert` moves the inserted entry down a place, keeping the entries and the ties. */
  lemma SwapStep(s: seq<Listing>, i: nat, j: nat, le: (Listing, Listing) -> bool)
    requires TotalPreorder(le)
    requires 0 < j && Inserting(s, i, j, le) && !le(s[j - 1], s[j])
    ensures var t := s[j - 1 := s[j]][j := s[j - 1]];
            && Inserting(t, i, j - 1, le)
            && multiset(t) == multiset(s)
            && KeepsTies(t, s, le)
  {
    SwapKeepsTies(s, j, le);
  }

  /**
   * `filtered.sort(cmp)`: sort the array in place into a permutation of
   * itself, keeping tied entries in the order they had.
   */
  method SortInPlace(a: array<Listing>, le: (Listing, Listing) -> bool)
    requires TotalPreorder(le)
    modifies a
    ensures Sorted(a[..], le)
    ensures multiset(a[..]) == multiset(old(a[..]))
    ensures KeepsTies(a[..], old(a[..]), le)
  {
    var i := 0;
    while i < a.Length
      invariant 0 <= i <= a.Length
      invariant Sorted(a[..i], le)
      invariant multiset(a[..]) == multiset(old(a[..]))
      invariant KeepsTies(a[..], old(a[..]), le)
    {
      ghost var before := a[..];
      Insert(a, i, le);
      KeepsTiesTrans(a[..], before, old(a[..]), le);
      i := i + 1;
    }
    assert a[..] == a[..a.Length];
  }

  /** One insertion step: swap `a[i]` down past the entries that must follow it, until `a[..i + 1]` is sorted. */
  method Insert(a: array<Listing>, i: nat, le: (Listing, Listing) -> bool)
    requires TotalPreorder(le)
    requires i < a.Length && Sorted(a[..i], le)
    modifies a
    ensures Sorted(a[..i + 1], le)
    ensures multiset(a[..]) == multiset(old(a[..]))
    ensures KeepsTies(a[..], old(a[..]), le)
  {
    var j := i;
    StartInserting(a[..], i, le);
    while j > 0 && !le(a[j - 1], a[j])
      invariant 0 <= j <= i
      invariant Inserting(a[..], i, j, le)
      invariant multiset(a[..]) == multiset(old(a[..]))
      invariant KeepsTies(a[..], old(a[..]), le)
    {
      ghost var before := a[..];
      SwapStep(before, i, j, le);
      a[j - 1], a[j] := a[j], a[j - 1];
      assert a[..] == before[j - 1 := before[j]][j := before[j - 1]];
      KeepsTiesTrans(a[..], before, old(a[..]), le);
      j := j - 1;
    }
    DoneInserting(a[..], i, j, le);
  }

  /**
   * The list effect: filter the products, copy the result into a fresh
   * array, and sort that array by the chosen mode; products the mode ties
   * (equal prices, say) stay in the order the search found them.
   */
  method FilteredAndSorted(products: seq<Listing>, term: string, mode: SortMode, nameLe: (Listing, Listing) -> bool)
    returns (shown: array<Listing>)
    requires TotalPreorder(nameLe)
    ensures Sorted(shown[..], ComesFirst(mode, nameLe))
    ensures multiset(shown[..]) == multiset(Search(products, term))
    ensures KeepsTies(shown[..], Search(products, term), ComesFirst(mode, nameLe))
  {
    var filtered := Search(products, term);
    shown := new Listing[|filtered|](k requires 0 <= k < |filtered| => filtered[k]);
    assert shown[..] == filtered;
    ComesFirstIsPreorder(mode, nameLe);
    SortInPlace(shown, ComesFirst(mode, nameLe));
  }

  // ----------------------------------------------------------- add to cart

  predicate InCart(cart: seq<CartItem>, id: nat)
  {
    exists i :: 0 <= i < |cart| && cart[i].Id() == id
  }

  function Increment(id: nat): CartItem -> CartItem
  {
    (it: CartItem) => if it.Id() == id then it.(quantity := it.quantity + 1) else it
  }

  /**
   * `addToCart` on the stored cart: a product already in the cart has its
   * line's quantity raised by one, a new one is appended with quantity 1.
   */
  function AddedToCart(cart: seq<CartItem>, p: Listing): (r: seq<CartItem>)
    ensures InCart(cart, p.id) ==> |r| == |cart|
    ensures InCart(cart, p.id) ==> forall i :: 0 <= i < |cart| ==>
              r[i] == (if cart[i].Id() == p.id then cart[i].(quantity := cart[i].quantity + 1) else cart[i])
    ensures !InCart(cart, p.id) ==> r == cart + [CartItem(p, 1)]
    ensures |cart| <= |r| <= |cart| + 1
  {
    if InCart(cart, p.id) then Map(cart, Increment(p.id)) else cart + [CartItem(p, 1)]
  }

  function HasId(id: nat): CartItem -> bool
  {
    (it: CartItem) => it.Id() == id
  }

  lemma {:induction false} IncrementTotal(cart: seq<CartItem>, id: nat)
    ensures TotalQuantity(Map(cart, Increment(id))) == TotalQuantity(cart) + Count(cart, HasId(id))
  {
    if cart != [] {
      assert Map(cart, Increment(id))[1..] == Map(cart[1..], Increment(id));
      IncrementTotal(cart[1..], id);
    }
  }

  lemma {:induction false} UniqueIdCountsOnce(cart: seq<CartItem>, id: nat)
    requires UniqueIds(cart) && InCart(cart, id)
    ensures Count(cart, HasId(id)) == 1
  {
    if cart[0].Id() == id {
      NotInCountsZero(cart[1..], id);
    } else {
      var i :| 0 <= i < |cart| && cart[i].Id() == id;
      assert cart[1..][i - 1].Id() == id;
      UniqueIdCountsOnce(cart[1..], id);
    }
  }

  lemma {:induction false} NotInCountsZero(cart: seq<CartItem>, id: nat)
    requires !InCart(cart, id)
    ensures Count(cart, HasId(id)) == 0
  {
    if cart != [] {
      assert cart[0].Id() != id;
      NotInCountsZero(cart[1..], id);
    }
  }

  /** On a cart with one line per product, adding raises the total quantity by exactly one. */
  lemma AddRaisesTotalByOne(cart: seq<CartItem>, p: Listing)
    requires UniqueIds(cart)
    ensures TotalQuantity(AddedToCart(cart, p)) == TotalQuantity(cart) + 1
  {
    if InCart(cart, p.id) {
      IncrementTotal(cart, p.id);
      UniqueIdCountsOnce(cart, p.id);
    } else {
      SumIntAppend(cart, CartItem(p, 1), ItemQuantity);
    }
  }

  /** Adding keeps one line per product. */
  lemma AddKeepsIdsUnique(cart: seq<CartItem>, p: Listing)
    requires UniqueIds(cart)
    ensures UniqueIds(AddedToCart(cart, p))
  {
    var r := AddedToCart(cart, p);
    if !InCart(cart, p.id) {
      forall i, j | 0 <= i < j < |r|
        ensures r[i].Id() != r[j].Id()
      {
        if j == |cart| {
          assert r[i] == cart[i];
        }
      }
    }
  }

  /** `addToCart`: read the stored cart (or an empty one), add the product, write it back. */
  method AddToCart(storage: Storage, p: Listing)
    modifies storage
    ensures storage.cart == Some(AddedToCart(old(storage.SavedCart()), p))
    ensures storage.token == old(storage.token) && storage.user == old(storage.user)
  {
    var existing := storage.SavedCart();
    storage.cart := Some(AddedToCart(existing, p));
  }
}
