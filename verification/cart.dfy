/**
 * The cart ledger of `cartStore`: a sequence of (product, quantity) entries,
 * the cached `totalPrice`, the derived `count`, and the snapshot last written
 * to client storage under the cart key.
 */
module CartStore {
  import opened Wrappers
  import opened Catalog
  import opened SeqFilter

  datatype CartItem = CartItem(product: Product, quantity: int)

  /** What client storage holds under the cart key. */
  datatype CartStorage =
    | NoCartEntry
    | CartArray(entries: seq<CartItem>)
    | CartNotArray     // parses, but not to an array
    | CartUnparseable  // JSON.parse throws

  /** Store state: `_cartItems`, `_totalPrice` and the storage content. */
  datatype Cart = Cart(items: seq<CartItem>, totalPrice: int, storage: CartStorage)

  // ----- sums over the entries -----

  /** Σ f(entry), folded left to right like `Array.prototype.reduce`. */
  function Sum(items: seq<CartItem>, f: CartItem -> int): int {
    if items == [] then 0 else Sum(items[..|items| - 1], f) + f(items[|items| - 1])
  }

  function LinePrice(it: CartItem): int { it.product.price * it.quantity }

  function LineCount(it: CartItem): int { it.quantity }

  /** Σ price × quantity. */
  function Total(items: seq<CartItem>): int { Sum(items, LinePrice) }

  /** The `count` getter: Σ quantity. */
  function Count(items: seq<CartItem>): int { Sum(items, LineCount) }

  lemma {:induction false} SumAppend(a: seq<CartItem>, b: seq<CartItem>, f: CartItem -> int)
    ensures Sum(a + b, f) == Sum(a, f) + Sum(b, f)
    decreases |b|
  {
    if b == [] {
      assert a + b == a;
    } else {
      var b' := b[..|b| - 1];
      assert (a + b)[..|a + b| - 1] == a + b';
      SumAppend(a, b', f);
    }
  }

  lemma SumSingleton(x: CartItem, f: CartItem -> int)
    ensures Sum([x], f) == f(x)
  {
    assert [x][..0] == [];
  }

  /** Replacing one entry changes the sum by the difference of the two terms. */
  lemma SumUpdate(s: seq<CartItem>, i: int, x: CartItem, f: CartItem -> int)
    requires 0 <= i < |s|
    ensures Sum(s[i := x], f) == Sum(s, f) - f(s[i]) + f(x)
  {
    assert s == s[..i] + [s[i]] + s[i + 1..];
    assert s[i := x] == s[..i] + [x] + s[i + 1..];
    SumAppend(s[..i] + [s[i]], s[i + 1..], f);
    SumAppend(s[..i], [s[i]], f);
    SumAppend(s[..i] + [x], s[i + 1..], f);
    SumAppend(s[..i], [x], f);
    SumSingleton(s[i], f);
    SumSingleton(x, f);
  }

  /** Taking `x` out from between `a` and `b` takes its term out of the sum. */
  lemma SumWithout(a: seq<CartItem>, x: CartItem, b: seq<CartItem>, f: CartItem -> int)
    ensures Sum(a + b, f) == Sum(a + [x] + b, f) - f(x)
  {
    SumAppend(a + [x], b, f);
    SumAppend(a, [x], f);
    SumSingleton(x, f);
    SumAppend(a, b, f);
  }

  /** Removing one entry takes its term out of the sum. */
  lemma SumRemove(s: seq<CartItem>, i: int, f: CartItem -> int)
    requires 0 <= i < |s|
    ensures Sum(s[..i] + s[i + 1..], f) == Sum(s, f) - f(s[i])
  {
    Split(s, i);
    SumWithout(s[..i], s[i], s[i + 1..], f);
  }

  lemma Split(s: seq<CartItem>, i: int)
    requires 0 <= i < |s|
    ensures s == s[..i] + [s[i]] + s[i + 1..]
  {
  }

  // ----- lookup and invariants -----

  predicate HasId(items: seq<CartItem>, id: int) {
    exists j :: 0 <= j < |items| && items[j].product.id == id
  }

  /** `findIndex(item => item.product.id === id)`: the first matching entry, or -1. */
  function IndexOf(items: seq<CartItem>, id: int): (r: int)
    ensures -1 <= r < |items|
    ensures r >= 0 ==> items[r].product.id == id
    ensures forall j :: 0 <= j < |items| && (r < 0 || j < r) ==> items[j].product.id != id
    ensures r >= 0 <==> HasId(items, id)
  {
    if items == [] then -1
    else if items[0].product.id == id then 0
    else
      var k := IndexOf(items[1..], id);
      assert forall j :: 1 <= j < |items| ==> items[j] == items[1..][j - 1];
      if k < 0 then -1 else k + 1
  }

  /** At most one entry per product id, and every quantity is at least 1. */
  predicate ValidItems(items: seq<CartItem>) {
    && (forall i, j :: 0 <= i < j < |items| ==> items[i].product.id != items[j].product.id)
    && (forall i :: 0 <= i < |items| ==> items[i].quantity >= 1)
  }

  /** The cached total agrees with the entries. */
  predicate Consistent(c: Cart) {
    c.totalPrice == Total(c.items)
  }

  /** The state after a mutation: total recomputed, entries written to storage. */
  function Commit(items: seq<CartItem>): (r: Cart)
    ensures Consistent(r) && r.items == items && r.storage == CartArray(items)
  {
    Cart(items, Total(items), CartArray(items))
  }

  // ----- operations -----

  /** The store as created: state loaded from storage (`_loadFromStorage`). */
  function Load(storage: CartStorage): (r: Cart)
    ensures Consistent(r) && r.storage == storage
    ensures storage.CartArray? ==> r.items == storage.entries
    ensures !storage.CartArray? ==> r.items == [] && r.totalPrice == 0
  {
    match storage
    case CartArray(entries) => Cart(entries, Total(entries), storage)
    case _ => Cart([], 0, storage)
  }

  function AddToCart(c: Cart, p: Product): (r: Cart)
    ensures Consistent(r) && r.storage == CartArray(r.items)
    ensures HasId(c.items, p.id) ==>
      && |r.items| == |c.items|
      && (forall j :: 0 <= j < |c.items| ==> r.items[j].product == c.items[j].product)
      && (forall j :: 0 <= j < |c.items| ==>
            r.items[j].quantity == c.items[j].quantity + (if c.items[j].product.id == p.id && j == IndexOf(c.items, p.id) then 1 else 0))
    ensures !HasId(c.items, p.id) ==>
      && |r.items| == |c.items| + 1
      && r.items[..|c.items|] == c.items
      && r.items[|c.items|] == CartItem(p, 1)
  {
    var k := IndexOf(c.items, p.id);
    if k >= 0 then
      Commit(c.items[k := c.items[k].(quantity := c.items[k].quantity + 1)])
    else
      Commit(c.items + [CartItem(p, 1)])
  }

  function RemoveFromCart(c: Cart, id: int): (r: Cart)
    ensures !HasId(c.items, id) ==> r == c
    ensures HasId(c.items, id) ==>
      && Consistent(r) && r.storage == CartArray(r.items)
      && |r.items| == |c.items| - 1
      && multiset(r.items) + multiset{c.items[IndexOf(c.items, id)]} == multiset(c.items)
      && r.items[..IndexOf(c.items, id)] == c.items[..IndexOf(c.items, id)]
    ensures IsSubsequence(r.items, c.items)
  {
    var k := IndexOf(c.items, id);
    if k < 0 then
      SubsequenceRefl(c.items);
      c
    else
      assert c.items == c.items[..k] + [c.items[k]] + c.items[k + 1..];
      DeleteIsSubsequence(c.items, k);
      Commit(c.items[..k] + c.items[k + 1..])
  }

  /** `Math.trunc`: rounds toward zero. */
  function Trunc(q: real): (n: int)
    ensures 0.0 <= q ==> n as real <= q < n as real + 1.0
    ensures q < 0.0 ==> n as real - 1.0 < q <= n as real
  {
    if q >= 0.0 then q.Floor else -((-q).Floor)
  }

  /** `Math.max(0, Math.trunc(q))`: the quantity `updateQuantity` stores. */
  function NewQuantity(q: real): (n: int)
    ensures n >= 0
    ensures n == 0 <==> q < 1.0
    ensures q >= 1.0 ==> n as real <= q < n as real + 1.0
  {
    var t := Trunc(q);
    if t < 0 then 0 else t
  }

  function UpdateQuantity(c: Cart, id: int, q: real): (r: Cart)
    ensures !HasId(c.items, id) ==> r == c
    ensures HasId(c.items, id) && NewQuantity(q) == 0 ==> r == RemoveFromCart(c, id)
    ensures HasId(c.items, id) && NewQuantity(q) > 0 ==>
      && Consistent(r) && r.storage == CartArray(r.items)
      && |r.items| == |c.items|
      && (forall j :: 0 <= j < |c.items| ==> r.items[j].product == c.items[j].product)
      && r.items[IndexOf(c.items, id)].quantity == NewQuantity(q)
      && (forall j :: 0 <= j < |c.items| && j != IndexOf(c.items, id) ==> r.items[j] == c.items[j])
  {
    var k := IndexOf(c.items, id);
    if k < 0 then c
    else
      var n := NewQuantity(q);
      if n == 0 then
        // the entry is zeroed, `removeFromCart(id)` splices it out, then the
        // total is recomputed and saved once more over the same entries
        var removed := RemoveFromCart(c, id);
        Commit(removed.items)
      else
        Commit(c.items[k := c.items[k].(quantity := n)])
  }

  function ClearCart(c: Cart): (r: Cart)
    ensures r.items == [] && r.totalPrice == 0 && Count(r.items) == 0
    ensures r.storage == CartArray([])
  {
    Commit([])
  }

  /** `_recomputeTotal`: the reduce loop over the entries. */
  method RecomputeTotal(items: seq<CartItem>) returns (total: int)
    ensures total == Total(items)
  {
    total := 0;
    var i := 0;
    while i < |items|
      invariant 0 <= i <= |items|
      invariant total == Total(items[..i])
    {
      assert items[..i + 1][..i] == items[..i];
      total := total + items[i].product.price * items[i].quantity;
      i := i + 1;
    }
    assert items[..i] == items;
  }

  // ----- properties -----

  /**
   * `addToCart` raises `count` by exactly one and `totalPrice` by the unit
   * price of the entry it touched (the stored product's price when the
   * product is already in the cart).
   */
  lemma AddToCartTotals(c: Cart, p: Product)
    requires Consistent(c)
    ensures Count(AddToCart(c, p).items) == Count(c.items) + 1
    ensures AddToCart(c, p).totalPrice == c.totalPrice +
      (if HasId(c.items, p.id) then c.items[IndexOf(c.items, p.id)].product.price else p.price)
  {
    var k := IndexOf(c.items, p.id);
    if k >= 0 {
      var e := c.items[k];
      var x := e.(quantity := e.quantity + 1);
      assert AddToCart(c, p).items == c.items[k := x];
      SumUpdate(c.items, k, x, LineCount);
      SumUpdate(c.items, k, x, LinePrice);
      MulStep(e.product.price, e.quantity, 1);
    } else {
      assert AddToCart(c, p).items == c.items + [CartItem(p, 1)];
      SumAppend(c.items, [CartItem(p, 1)], LineCount);
      SumAppend(c.items, [CartItem(p, 1)], LinePrice);
      SumSingleton(CartItem(p, 1), LineCount);
      SumSingleton(CartItem(p, 1), LinePrice);
    }
  }

  lemma MulStep(price: int, q: int, d: int)
    ensures price * (q + d) == price * q + price * d
  {
  }

  /** Removing a present entry takes exactly its line out of `totalPrice` and `count`. */
  lemma RemoveFromCartTotals(c: Cart, id: int)
    requires HasId(c.items, id)
    ensures RemoveFromCart(c, id).totalPrice == Total(c.items) - LinePrice(c.items[IndexOf(c.items, id)])
    ensures Count(RemoveFromCart(c, id).items) == Count(c.items) - c.items[IndexOf(c.items, id)].quantity
  {
    var k := IndexOf(c.items, id);
    SumRemove(c.items, k, LinePrice);
    SumRemove(c.items, k, LineCount);
  }

  /** Setting entry `k` to quantity `n` moves `count` and the total by the difference. */
  lemma SetQuantitySums(s: seq<CartItem>, k: int, n: int)
    requires 0 <= k < |s|
    ensures Count(s[k := s[k].(quantity := n)]) == Count(s) - s[k].quantity + n
    ensures Total(s[k := s[k].(quantity := n)]) == Total(s) + s[k].product.price * (n - s[k].quantity)
  {
    var e := s[k];
    var x := e.(quantity := n);
    SumUpdate(s, k, x, LineCount);
    SumUpdate(s, k, x, LinePrice);
    MulStep(e.product.price, e.quantity, n - e.quantity);
  }

  /** A positive update rewrites the first matching entry in place. */
  lemma UpdatePositive(c: Cart, id: int, q: real)
    requires HasId(c.items, id) && q >= 1.0
    ensures var k := IndexOf(c.items, id);
      UpdateQuantity(c, id, q) == Commit(c.items[k := c.items[k].(quantity := NewQuantity(q))])
  {
    assert NewQuantity(q) > 0;
  }

  /** Setting a positive quantity moves `count` and `totalPrice` by the difference. */
  lemma UpdateQuantityTotals(c: Cart, id: int, q: real)
    requires HasId(c.items, id) && q >= 1.0
    ensures var e := c.items[IndexOf(c.items, id)];
      && Count(UpdateQuantity(c, id, q).items) == Count(c.items) - e.quantity + NewQuantity(q)
      && UpdateQuantity(c, id, q).totalPrice == Total(c.items) + e.product.price * (NewQuantity(q) - e.quantity)
  {
    UpdatePositive(c, id, q);
    SetQuantitySums(c.items, IndexOf(c.items, id), NewQuantity(q));
  }

  /** A quantity that truncates to zero or below removes the entry, like `removeFromCart`. */
  lemma UpdateToZeroIsRemove(c: Cart, id: int, q: real)
    requires q < 1.0
    ensures UpdateQuantity(c, id, q) == RemoveFromCart(c, id)
  {
  }

  lemma AddToCartKeepsValid(c: Cart, p: Product)
    requires ValidItems(c.items)
    ensures ValidItems(AddToCart(c, p).items)
  {
    var s := c.items;
    var k := IndexOf(s, p.id);
    if k >= 0 {
      var r := s[k := s[k].(quantity := s[k].quantity + 1)];
      assert AddToCart(c, p).items == r;
      forall i, j | 0 <= i < j < |r| ensures r[i].product.id != r[j].product.id {
        assert r[i].product == s[i].product && r[j].product == s[j].product;
      }
    } else {
      var r := s + [CartItem(p, 1)];
      assert AddToCart(c, p).items == r;
      forall i, j | 0 <= i < j < |r| ensures r[i].product.id != r[j].product.id {
        assert r[i] == s[i];
        if j < |s| { assert r[j] == s[j]; }
      }
      forall i | 0 <= i < |r| ensures r[i].quantity >= 1 {
        if i < |s| { assert r[i] == s[i]; }
      }
    }
  }

  /** Dropping entry `k` of a valid list leaves a valid list without that entry's id. */
  lemma ValidWithout(s: seq<CartItem>, k: int)
    requires ValidItems(s) && 0 <= k < |s|
    ensures ValidItems(s[..k] + s[k + 1..])
    ensures !HasId(s[..k] + s[k + 1..], s[k].product.id)
  {
    var r := s[..k] + s[k + 1..];
    assert forall j :: 0 <= j < |r| ==> r[j] == s[if j < k then j else j + 1];
  }

  lemma RemoveFromCartKeepsValid(c: Cart, id: int)
    requires ValidItems(c.items)
    ensures ValidItems(RemoveFromCart(c, id).items)
    ensures !HasId(RemoveFromCart(c, id).items, id)
  {
    var k := IndexOf(c.items, id);
    if k >= 0 {
      assert RemoveFromCart(c, id).items == c.items[..k] + c.items[k + 1..];
      ValidWithout(c.items, k);
    }
  }

  lemma UpdateQuantityKeepsValid(c: Cart, id: int, q: real)
    requires ValidItems(c.items)
    ensures ValidItems(UpdateQuantity(c, id, q).items)
  {
    if HasId(c.items, id) && NewQuantity(q) == 0 {
      RemoveFromCartKeepsValid(c, id);
    }
  }

  /** The entries other than product `id`, in their order. */
  function Without(items: seq<CartItem>, id: int): (r: seq<CartItem>)
    ensures !HasId(r, id)
  {
    if items == [] then []
    else if items[0].product.id == id then Without(items[1..], id)
    else [items[0]] + Without(items[1..], id)
  }

  lemma {:induction false} WithoutAppend(a: seq<CartItem>, b: seq<CartItem>, id: int)
    ensures Without(a + b, id) == Without(a, id) + Without(b, id)
  {
    if a == [] {
      assert a + b == b;
    } else {
      assert (a + b)[0] == a[0];
      assert (a + b)[1..] == a[1..] + b;
      WithoutAppend(a[1..], b, id);
      if a[0].product.id != id {
        assert Without(a + b, id) == [a[0]] + (Without(a[1..], id) + Without(b, id));
      }
    }
  }

  lemma {:induction false} WithoutAbsent(items: seq<CartItem>, id: int)
    requires !HasId(items, id)
    ensures Without(items, id) == items
  {
    if items != [] {
      assert items[0].product.id != id;
      assert !HasId(items[1..], id) by {
        forall j | 0 <= j < |items[1..]| ensures items[1..][j].product.id != id {
          assert items[1..][j] == items[j + 1];
        }
      }
      WithoutAbsent(items[1..], id);
      assert items == [items[0]] + items[1..];
    }
  }

  /** Dropping the one entry with `id` from between two runs that lack it. */
  lemma {:induction false} WithoutMiddle(pre: seq<CartItem>, x: CartItem, post: seq<CartItem>, id: int)
    requires x.product.id == id && !HasId(pre, id) && !HasId(post, id)
    ensures Without(pre + [x] + post, id) == pre + post
  {
    WithoutAbsent(pre, id);
    WithoutAbsent(post, id);
    WithoutAppend(pre + [x], post, id);
    WithoutAppend(pre, [x], id);
    assert Without([x], id) == [];
  }

  /** Past the first entry with `id`, a cart with unique ids has no other. */
  lemma AfterFirstIsAbsent(items: seq<CartItem>, k: int, id: int)
    requires ValidItems(items) && 0 <= k < |items| && items[k].product.id == id
    ensures !HasId(items[k + 1..], id)
  {
    var post := items[k + 1..];
    forall j | 0 <= j < |post| ensures post[j].product.id != id {
      assert post[j] == items[k + 1 + j];
    }
  }

  /** Before the first entry with `id` there is none. */
  lemma BeforeFirstIsAbsent(items: seq<CartItem>, id: int)
    requires IndexOf(items, id) >= 0
    ensures !HasId(items[..IndexOf(items, id)], id)
  {
    var k := IndexOf(items, id);
    var pre := items[..k];
    forall j | 0 <= j < |pre| ensures pre[j].product.id != id {
      assert pre[j] == items[j];
    }
  }

  /**
   * On a cart with unique ids, `removeFromCart(id)` is exactly "keep every
   * other entry, in order".
   */
  lemma {:induction false} RemoveFromCartIsFilter(c: Cart, id: int)
    requires ValidItems(c.items)
    ensures RemoveFromCart(c, id).items == Without(c.items, id)
  {
    var k := IndexOf(c.items, id);
    if k < 0 {
      WithoutAbsent(c.items, id);
    } else {
      var pre, x, post := c.items[..k], c.items[k], c.items[k + 1..];
      assert c.items == pre + [x] + post;
      AfterFirstIsAbsent(c.items, k, id);
      BeforeFirstIsAbsent(c.items, id);
      WithoutMiddle(pre, x, post, id);
      assert RemoveFromCart(c, id).items == pre + post;
    }
  }

  /**
   * Every mutation writes exactly the entries it leaves in memory, so the
   * next load restores the same entries and total. Storage holds the entry
   * sequence itself: this is a statement about what is written, not about
   * the JSON encoding, which is not modelled.
   */
  lemma PersistRoundTrip(c: Cart, p: Product, id: int, q: real)
    ensures Load(AddToCart(c, p).storage) == AddToCart(c, p)
    ensures Load(ClearCart(c).storage) == ClearCart(c)
    ensures HasId(c.items, id) ==> Load(RemoveFromCart(c, id).storage) == RemoveFromCart(c, id)
    ensures HasId(c.items, id) ==> Load(UpdateQuantity(c, id, q).storage) == UpdateQuantity(c, id, q)
  {
  }

  /** Product A (price 50) added twice and B (price 100) once: count 3, total 200. */
  lemma TwoProductsScenario(a: Product, b: Product)
    requires a.price == 50 && b.price == 100 && a.id != b.id
    ensures var c := AddToCart(AddToCart(AddToCart(Load(NoCartEntry), a), a), b);
      Count(c.items) == 3 && c.totalPrice == 200
  {
    var c0 := Load(NoCartEntry);
    AddToCartTotals(c0, a);
    var c1 := AddToCart(c0, a);
    AddToCartTotals(c1, a);
    var c2 := AddToCart(c1, a);
    AddToCartTotals(c2, b);
  }
}
