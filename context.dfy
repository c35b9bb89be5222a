/** The application state of context.tsx: the cart reducers and total, and
    the auth state with its login, logout and start-up transitions. */
module Context {
  import opened Types
  import opened Seqs
  import Api

  // ---------------------------------------------------------------------------
  // Auth state
  // ---------------------------------------------------------------------------

  /** The auth state claims a session exactly when it holds a user. */
  predicate Consistent(a: AuthState)
  {
    a.isAuthenticated <==> a.user.Some?
  }

  /** The state before the stored pointer has been looked at. */
  function InitialAuth(): (a: AuthState)
    ensures Consistent(a) && !a.isAuthenticated
  {
    AuthState(None, false)
  }

  /** The state after start-up has read the stored current-user pointer. */
  function Startup(stored: Option<User>): (a: AuthState)
    ensures Consistent(a) && a.user == stored
  {
    if stored.Some? then AuthState(stored, true) else InitialAuth()
  }

  function Login(user: User): (a: AuthState)
    ensures Consistent(a) && a.user == Some(user)
  {
    AuthState(Some(user), true)
  }

  function LoggedOut(): (a: AuthState)
    ensures Consistent(a) && a.user.None?
  {
    AuthState(None, false)
  }

  /** `logout`: removes the stored pointer, then drops the session. */
  method Logout(store: Api.LocalStore) returns (a: AuthState)
    modifies store
    ensures a == LoggedOut() && store.currentUser == None
    ensures store.products == old(store.products) && store.users == old(store.users)
    ensures store.orders == old(store.orders)
  {
    store.Logout();
    a := LoggedOut();
  }

  /** A later start-up finds no session after a logout. */
  method LogoutThenStartup(store: Api.LocalStore) returns (a: AuthState)
    modifies store
    ensures !a.isAuthenticated && a.user.None?
  {
    var _ := Logout(store);
    a := Startup(store.GetCurrentUser());
  }

  // ---------------------------------------------------------------------------
  // Cart reducers
  // ---------------------------------------------------------------------------

  function Id(e: CartItem): string
  {
    e.product.id
  }

  /** The index of the (first) entry for a product id: `prev.find(...)`. */
  function Existing(cart: seq<CartItem>, id: string): (r: Option<nat>)
    ensures r.Some? ==> r.value < |cart| && Id(cart[r.value]) == id
    ensures r.Some? ==> forall j :: 0 <= j < r.value ==> Id(cart[j]) != id
    ensures r.None? <==> forall j :: 0 <= j < |cart| ==> Id(cart[j]) != id
  {
    FindIndex(cart, (e: CartItem) => Id(e) == id)
  }

  /** At most one entry per product id. */
  ghost predicate UniqueIds(cart: seq<CartItem>)
  {
    forall i, j :: 0 <= i < j < |cart| ==> Id(cart[i]) != Id(cart[j])
  }

  /** The `prev.map(...)` of an add: every entry for `id` has `qty` added to its
      quantity and keeps its fields; every other entry is unchanged. */
  function Bump(cart: seq<CartItem>, id: string, qty: int): (r: seq<CartItem>)
    ensures |r| == |cart|
    ensures forall i :: 0 <= i < |cart| ==> r[i].product == cart[i].product
    ensures forall i :: 0 <= i < |cart| ==>
      r[i].quantity == if Id(cart[i]) == id then cart[i].quantity + qty else cart[i].quantity
  {
    if |cart| == 0 then []
    else
      [if Id(cart[0]) == id then cart[0].(quantity := cart[0].quantity + qty) else cart[0]]
      + Bump(cart[1..], id, qty)
  }

  /** `addToCart(product, qty)` as a reducer of the previous cart. */
  function AddToCart(cart: seq<CartItem>, product: Product, qty: int): (r: seq<CartItem>)
    ensures |cart| <= |r| <= |cart| + 1
    ensures forall i :: 0 <= i < |cart| ==> r[i].product == cart[i].product
    ensures |r| == |cart| + 1 <==> forall i :: 0 <= i < |cart| ==> Id(cart[i]) != product.id
    ensures |r| == |cart| + 1 ==> r[|cart|] == CartItem(product, qty)
  {
    if Existing(cart, product.id).Some? then Bump(cart, product.id, qty)
    else cart + [CartItem(product, qty)]
  }

  /** Adding a product already in the cart keeps the length and every product
      field; only entries with that id change, by `qty` exactly. */
  lemma AddToCartExisting(cart: seq<CartItem>, product: Product, qty: int)
    requires Existing(cart, product.id).Some?
    ensures var r := AddToCart(cart, product, qty);
      |r| == |cart|
      && (forall i :: 0 <= i < |cart| ==> r[i].product == cart[i].product)
      && (forall i :: 0 <= i < |cart| && Id(cart[i]) == product.id ==> r[i].quantity == cart[i].quantity + qty)
      && (forall i :: 0 <= i < |cart| && Id(cart[i]) != product.id ==> r[i] == cart[i])
  {
    var r := AddToCart(cart, product, qty);
    forall i | 0 <= i < |cart| && Id(cart[i]) != product.id ensures r[i] == cart[i] {
      assert r[i].product == cart[i].product && r[i].quantity == cart[i].quantity;
    }
  }

  /** In a cart with one entry per id, adding an existing product changes the
      entry found for it and nothing else. */
  lemma AddToCartExistingUnique(cart: seq<CartItem>, product: Product, qty: int)
    requires UniqueIds(cart)
    requires Existing(cart, product.id).Some?
    ensures var k := Existing(cart, product.id).value;
      AddToCart(cart, product, qty) == cart[k := cart[k].(quantity := cart[k].quantity + qty)]
  {
    var k := Existing(cart, product.id).value;
    var r := AddToCart(cart, product, qty);
    AddToCartExisting(cart, product, qty);
    var s := cart[k := cart[k].(quantity := cart[k].quantity + qty)];
    forall i | 0 <= i < |cart| ensures r[i] == s[i] {
      if i != k {
        assert Id(cart[i]) != Id(cart[k]);
      }
    }
  }

  /** Adding a product not in the cart appends `{...product, quantity: qty}`. */
  lemma AddToCartNew(cart: seq<CartItem>, product: Product, qty: int)
    requires forall i :: 0 <= i < |cart| ==> Id(cart[i]) != product.id
    ensures AddToCart(cart, product, qty) == cart + [CartItem(product, qty)]
  {
  }

  /** Adding keeps at most one entry per product id. */
  lemma AddToCartKeepsUniqueIds(cart: seq<CartItem>, product: Product, qty: int)
    requires UniqueIds(cart)
    ensures UniqueIds(AddToCart(cart, product, qty))
  {
    var r := AddToCart(cart, product, qty);
    if Existing(cart, product.id).Some? {
      assert forall i :: 0 <= i < |r| ==> Id(r[i]) == Id(cart[i]);
    } else {
      assert forall i :: 0 <= i < |cart| ==> r[i] == cart[i];
    }
  }

  /** `removeFromCart(productId)`: the entries whose id differs, in order. */
  function RemoveFromCart(cart: seq<CartItem>, id: string): (r: seq<CartItem>)
    ensures forall k :: 0 <= k < |r| ==> Id(r[k]) != id && r[k] in cart
    ensures forall k :: 0 <= k < |cart| && Id(cart[k]) != id ==> cart[k] in r
    ensures forall x :: multiset(r)[x] == if Id(x) != id then multiset(cart)[x] else 0
  {
    FilterCounts(cart, (e: CartItem) => Id(e) != id);
    Filter(cart, (e: CartItem) => Id(e) != id)
  }

  /** Removing from a concatenation removes from each part, keeping the order. */
  lemma RemoveFromCartAppend(a: seq<CartItem>, b: seq<CartItem>, id: string)
    ensures RemoveFromCart(a + b, id) == RemoveFromCart(a, id) + RemoveFromCart(b, id)
  {
    FilterAppend(a, b, (e: CartItem) => Id(e) != id);
  }

  /** Removing an id that is not in the cart changes nothing. */
  lemma RemoveFromCartAbsentIsNoop(cart: seq<CartItem>, id: string)
    requires forall k :: 0 <= k < |cart| ==> Id(cart[k]) != id
    ensures RemoveFromCart(cart, id) == cart
  {
    FilterKeepsAll(cart, (e: CartItem) => Id(e) != id);
  }

  /** Removing the same id twice is removing it once. */
  lemma RemoveFromCartIdempotent(cart: seq<CartItem>, id: string)
    ensures RemoveFromCart(RemoveFromCart(cart, id), id) == RemoveFromCart(cart, id)
  {
    FilterIdempotent(cart, (e: CartItem) => Id(e) != id);
  }

  /** Removing keeps at most one entry per product id. */
  lemma {:induction false} RemoveFromCartKeepsUniqueIds(cart: seq<CartItem>, id: string)
    requires UniqueIds(cart)
    ensures UniqueIds(RemoveFromCart(cart, id))
  {
    if |cart| > 0 {
      var tail := cart[1..];
      assert UniqueIds(tail) by {
        forall i, j | 0 <= i < j < |tail| ensures Id(tail[i]) != Id(tail[j]) {
          assert tail[i] == cart[i + 1] && tail[j] == cart[j + 1];
        }
      }
      RemoveFromCartKeepsUniqueIds(tail, id);
      var rest := RemoveFromCart(tail, id);
      assert forall k :: 0 <= k < |rest| ==> Id(rest[k]) != Id(cart[0]) by {
        forall k | 0 <= k < |rest| ensures Id(rest[k]) != Id(cart[0]) {
          var m :| 0 <= m < |tail| && tail[m] == rest[k];
          assert cart[m + 1] == tail[m];
        }
      }
    }
  }

  /** `clearCart`. */
  function ClearCart(): (r: seq<CartItem>)
    ensures |r| == 0
  {
    []
  }

  // ---------------------------------------------------------------------------
  // Quantities per product id
  // ---------------------------------------------------------------------------

  /** The number of entries for a product id. */
  function CountOf(cart: seq<CartItem>, id: string): nat
  {
    if |cart| == 0 then 0 else (if Id(cart[0]) == id then 1 else 0) + CountOf(cart[1..], id)
  }

  /** The total quantity held under a product id. */
  function QuantityOf(cart: seq<CartItem>, id: string): int
  {
    if |cart| == 0 then 0
    else (if Id(cart[0]) == id then cart[0].quantity else 0) + QuantityOf(cart[1..], id)
  }

  lemma {:induction false} CountQuantityAppend(cart: seq<CartItem>, e: CartItem, id: string)
    ensures CountOf(cart + [e], id) == CountOf(cart, id) + (if Id(e) == id then 1 else 0)
    ensures QuantityOf(cart + [e], id) == QuantityOf(cart, id) + (if Id(e) == id then e.quantity else 0)
  {
    if |cart| > 0 {
      assert (cart + [e])[1..] == cart[1..] + [e];
      CountQuantityAppend(cart[1..], e, id);
    } else {
      assert (cart + [e])[1..] == [];
    }
  }

  /** Bumping one id adds `qty` once per entry for it and leaves the other ids alone. */
  lemma {:induction false} BumpCountQuantity(cart: seq<CartItem>, id: string, qty: int, x: string)
    ensures CountOf(Bump(cart, id, qty), x) == CountOf(cart, x)
    ensures QuantityOf(Bump(cart, id, qty), x)
      == QuantityOf(cart, x) + (if x == id then qty * CountOf(cart, id) else 0)
  {
    if |cart| > 0 {
      var r := Bump(cart, id, qty);
      assert r[1..] == Bump(cart[1..], id, qty);
      BumpCountQuantity(cart[1..], id, qty, x);
      if x == id {
        var c := if Id(cart[0]) == id then 1 else 0;
        calc {
          QuantityOf(r, x);
          (if Id(cart[0]) == x then cart[0].quantity + qty else 0) + QuantityOf(cart[1..], x) + qty * CountOf(cart[1..], id);
          QuantityOf(cart, x) + qty * c + qty * CountOf(cart[1..], id);
          { assert qty * c + qty * CountOf(cart[1..], id) == qty * (c + CountOf(cart[1..], id)); }
          QuantityOf(cart, x) + qty * CountOf(cart, id);
        }
      }
    }
  }

  /** With one entry per id, a product has one entry exactly when it is found. */
  lemma {:induction false} UniqueCount(cart: seq<CartItem>, id: string)
    requires UniqueIds(cart)
    ensures CountOf(cart, id) == if Existing(cart, id).Some? then 1 else 0
  {
    if |cart| > 0 {
      var tail := cart[1..];
      assert UniqueIds(tail) by {
        forall i, j | 0 <= i < j < |tail| ensures Id(tail[i]) != Id(tail[j]) {
          assert tail[i] == cart[i + 1] && tail[j] == cart[j + 1];
        }
      }
      UniqueCount(tail, id);
      if Id(cart[0]) == id {
        forall k | 0 <= k < |tail| ensures Id(tail[k]) != id {
          assert tail[k] == cart[k + 1];
        }
        assert Existing(tail, id).None?;
      } else {
        assert Existing(cart, id).Some? <==> Existing(tail, id).Some? by {
          assert forall k :: 0 <= k < |tail| ==> tail[k] == cart[k + 1];
        }
      }
    }
  }

  /** With one entry per id, an add raises that id's quantity by exactly `qty`,
      leaves one entry for it, and changes no other id. */
  lemma AddToCartQuantity(cart: seq<CartItem>, product: Product, qty: int, x: string)
    requires UniqueIds(cart)
    ensures var r := AddToCart(cart, product, qty);
      && QuantityOf(r, x) == QuantityOf(cart, x) + (if x == product.id then qty else 0)
      && CountOf(r, x) == (if x == product.id then 1 else CountOf(cart, x))
  {
    if Existing(cart, product.id).Some? {
      BumpCountQuantity(cart, product.id, qty, x);
      UniqueCount(cart, product.id);
    } else {
      CountQuantityAppend(cart, CartItem(product, qty), x);
      UniqueCount(cart, product.id);
    }
  }

  /** A sequence of `addToCart` calls, applied in order. */
  function AddEach(cart: seq<CartItem>, adds: seq<(Product, int)>): seq<CartItem>
    decreases |adds|
  {
    if |adds| == 0 then cart else AddEach(AddToCart(cart, adds[0].0, adds[0].1), adds[1..])
  }

  /** The sum of the quantities added under a product id. */
  function AddedFor(adds: seq<(Product, int)>, id: string): int
  {
    if |adds| == 0 then 0 else (if adds[0].0.id == id then adds[0].1 else 0) + AddedFor(adds[1..], id)
  }

  /** Whether some add is for that product id. */
  predicate Mentions(adds: seq<(Product, int)>, id: string)
  {
    exists k :: 0 <= k < |adds| && adds[k].0.id == id
  }

  /** After any sequence of adds a product id has one entry if it was in the
      cart or was added, none otherwise, and its quantity has grown by the sum
      of the quantities added for it. */
  lemma {:induction false} AddEachQuantity(cart: seq<CartItem>, adds: seq<(Product, int)>, id: string)
    requires UniqueIds(cart)
    ensures var r := AddEach(cart, adds);
      && UniqueIds(r)
      && QuantityOf(r, id) == QuantityOf(cart, id) + AddedFor(adds, id)
      && CountOf(r, id) == if CountOf(cart, id) > 0 || Mentions(adds, id) then 1 else 0
    decreases |adds|
  {
    if |adds| > 0 {
      var next := AddToCart(cart, adds[0].0, adds[0].1);
      AddToCartKeepsUniqueIds(cart, adds[0].0, adds[0].1);
      AddToCartQuantity(cart, adds[0].0, adds[0].1, id);
      AddEachQuantity(next, adds[1..], id);
      UniqueCount(cart, id);
      assert Mentions(adds, id) <==> adds[0].0.id == id || Mentions(adds[1..], id) by {
        if Mentions(adds, id) && adds[0].0.id != id {
          var k :| 0 <= k < |adds| && adds[k].0.id == id;
          assert adds[1..][k - 1] == adds[k];
        }
        if Mentions(adds[1..], id) {
          var k :| 0 <= k < |adds[1..]| && adds[1..][k].0.id == id;
          assert adds[k + 1] == adds[1..][k];
        }
      }
    } else {
      UniqueCount(cart, id);
    }
  }

  /** Starting from the empty cart, a product added any number of times has a
      single entry whose quantity is the sum of the quantities added. */
  lemma AddEachFromEmpty(adds: seq<(Product, int)>, id: string)
    requires Mentions(adds, id)
    ensures var r := AddEach([], adds);
      CountOf(r, id) == 1 && QuantityOf(r, id) == AddedFor(adds, id)
  {
    AddEachQuantity([], adds, id);
  }

  // ---------------------------------------------------------------------------
  // Cart total
  // ---------------------------------------------------------------------------

  /** `item.offerPrice || item.price`: an absent or zero offer price falls
      back to the price. */
  function UnitPrice(p: Product): (u: int)
    ensures p.offerPrice.None? || p.offerPrice == Some(0) ==> u == p.price
    ensures p.offerPrice.Some? && p.offerPrice.value != 0 ==> u == p.offerPrice.value
  {
    if p.offerPrice.Some? && p.offerPrice.value != 0 then p.offerPrice.value else p.price
  }

  function LineAmount(e: CartItem): int
  {
    UnitPrice(e.product) * e.quantity
  }

  /** `cart.reduce((sum, item) => sum + price * item.quantity, acc)`: the
      accumulator plus the sum of the line amounts. */
  function Reduce(cart: seq<CartItem>, acc: int): (r: int)
    ensures r == acc + Sigma(cart)
  {
    if |cart| == 0 then acc else Reduce(cart[1..], acc + LineAmount(cart[0]))
  }

  /** `cartTotal`: the reduce starting from 0, which is the sum of
      `(offerPrice || price) * quantity` over the entries. */
  function CartTotal(cart: seq<CartItem>): (t: int)
    ensures t == Sigma(cart)
  {
    Reduce(cart, 0)
  }

  /** The sum of the line amounts, as a mathematical sum. */
  ghost function Sigma(cart: seq<CartItem>): int
  {
    if |cart| == 0 then 0 else LineAmount(cart[0]) + Sigma(cart[1..])
  }

  lemma {:induction false} SigmaAppend(a: seq<CartItem>, b: seq<CartItem>)
    ensures Sigma(a + b) == Sigma(a) + Sigma(b)
  {
    if |a| == 0 {
      assert a + b == b;
    } else {
      assert (a + b)[1..] == a[1..] + b;
      SigmaAppend(a[1..], b);
    }
  }

  /** The total of two carts put together is the sum of their totals. */
  lemma CartTotalAppend(a: seq<CartItem>, b: seq<CartItem>)
    ensures CartTotal(a + b) == CartTotal(a) + CartTotal(b)
  {
    SigmaAppend(a, b);
  }

  /** Appending an entry raises the total by exactly its line amount. */
  lemma CartTotalAppendOne(cart: seq<CartItem>, e: CartItem)
    ensures CartTotal(cart + [e]) == CartTotal(cart) + UnitPrice(e.product) * e.quantity
  {
    CartTotalAppend(cart, [e]);
    assert [e][1..] == [];
    assert CartTotal([e]) == LineAmount(e) by {
      assert Reduce([e], 0) == Reduce([], 0 + LineAmount(e));
    }
  }

  /** The cleared cart totals 0. */
  lemma ClearCartTotal()
    ensures CartTotal(ClearCart()) == 0
  {
  }

  lemma {:induction false} SigmaBump(cart: seq<CartItem>, id: string, qty: int)
    ensures Sigma(Bump(cart, id, qty)) == Sigma(cart) + qty * SigmaPrices(cart, id)
  {
    if |cart| > 0 {
      var r := Bump(cart, id, qty);
      assert r[1..] == Bump(cart[1..], id, qty);
      SigmaBump(cart[1..], id, qty);
      var u := UnitPrice(cart[0].product);
      var q := cart[0].quantity;
      if Id(cart[0]) == id {
        assert LineAmount(r[0]) == u * q + qty * u by {
          assert u * (q + qty) == u * q + u * qty;
        }
        assert qty * u + qty * SigmaPrices(cart[1..], id) == qty * (u + SigmaPrices(cart[1..], id));
      }
    }
  }

  /** The sum of the unit prices of the entries for a product id. */
  ghost function SigmaPrices(cart: seq<CartItem>, id: string): int
  {
    if |cart| == 0 then 0
    else (if Id(cart[0]) == id then UnitPrice(cart[0].product) else 0) + SigmaPrices(cart[1..], id)
  }

  /** With one entry per id, adding a product already in the cart raises the
      total by `qty` times the unit price of the entry already there; the
      fields of the product passed in play no part. */
  lemma AddToCartTotalExisting(cart: seq<CartItem>, product: Product, qty: int)
    requires UniqueIds(cart)
    requires Existing(cart, product.id).Some?
    ensures var k := Existing(cart, product.id).value;
      CartTotal(AddToCart(cart, product, qty)) == CartTotal(cart) + qty * UnitPrice(cart[k].product)
  {
    var k := Existing(cart, product.id).value;
    SigmaBump(cart, product.id, qty);
    SigmaPricesUnique(cart, product.id);
  }

  lemma {:induction false} SigmaPricesUnique(cart: seq<CartItem>, id: string)
    requires UniqueIds(cart)
    requires Existing(cart, id).Some?
    ensures SigmaPrices(cart, id) == UnitPrice(cart[Existing(cart, id).value].product)
  {
    var tail := cart[1..];
    assert forall k :: 0 <= k < |tail| ==> tail[k] == cart[k + 1];
    if Id(cart[0]) == id {
      SigmaPricesNone(tail, id);
    } else {
      assert UniqueIds(tail);
      assert Existing(tail, id).Some?;
      SigmaPricesUnique(tail, id);
    }
  }

  lemma {:induction false} SigmaPricesNone(cart: seq<CartItem>, id: string)
    requires forall k :: 0 <= k < |cart| ==> Id(cart[k]) != id
    ensures SigmaPrices(cart, id) == 0
  {
    if |cart| > 0 {
      SigmaPricesNone(cart[1..], id);
    }
  }
}
