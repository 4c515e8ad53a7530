/**
 * `useCheckout`: after the backend completes the checkout, the order is
 * written at the head of the stored history (capped at 20) and the cart is
 * emptied.
 */
module CheckoutOrder {
  import opened Wrappers
  import opened Catalog
  import opened ErrorHandler
  import opened CartStore
  import opened Orders

  const MaxOrders: nat := 20
  const UnknownOrderId := "unknown"

  /**
   * A cart entry as an order line. The product record has no `image`
   * field, so the copied `item.product.image` is always absent.
   */
  function ToOrderItem(it: CartItem): OrderItem {
    OrderItem(it.product.id, it.product.title, None, it.quantity, it.product.price)
  }

  function ToOrderItems(items: seq<CartItem>): (r: seq<OrderItem>)
    ensures |r| == |items|
    ensures forall i :: 0 <= i < |items| ==>
      && r[i].id == items[i].product.id && r[i].title == items[i].product.title
      && r[i].quantity == items[i].quantity && r[i].price == items[i].product.price
  {
    if items == [] then [] else [ToOrderItem(items[0])] + ToOrderItems(items[1..])
  }

  /** The first `n` elements, or all of them when there are fewer (`slice(0, n)`). */
  function Take<T>(s: seq<T>, n: nat): (r: seq<T>)
    ensures |r| == if |s| < n then |s| else n
    ensures r == s[..|r|]
  {
    if |s| <= n then s else s[..n]
  }

  /**
   * `stored` is `order` followed by the newest of `previous`, as many as fit
   * under the cap.
   */
  predicate PrependedCapped(stored: seq<Order>, order: Order, previous: seq<Order>) {
    && |stored| == (if |previous| < MaxOrders then |previous| + 1 else MaxOrders)
    && stored[0] == order
    && stored[1..] == previous[..|stored| - 1]
  }

  datatype SaveOutcome = Saved(storage: OrdersStorage) | SaveThrew

  /**
   * `saveOrder(orderId, items, total)`: a completed order stamped `now` is
   * put first and the list cut to 20. Unusable stored data makes
   * `JSON.parse` or `unshift` throw.
   */
  function SaveOrder(orderId: string, items: seq<CartItem>, total: int, now: string, storage: OrdersStorage): (r: SaveOutcome)
    ensures storage.OrdersUnusable? <==> r.SaveThrew?
    ensures r.Saved? ==>
      && r.storage.OrdersArray?
      && PrependedCapped(r.storage.orders, Order(orderId, now, Completed, ToOrderItems(items), total),
                         if storage.OrdersArray? then storage.orders else [])
  {
    var order := Order(orderId, now, Completed, ToOrderItems(items), total);
    match storage
    case NoOrdersEntry => Saved(OrdersArray(Take([order], MaxOrders)))
    case OrdersArray(os) => Saved(OrdersArray(Take([order] + os, MaxOrders)))
    case OrdersUnusable => SaveThrew
  }

  /** With 20 orders stored, saving one more drops the oldest. */
  lemma SaveEvictsOldest(orderId: string, items: seq<CartItem>, total: int, now: string, os: seq<Order>)
    requires |os| == MaxOrders
    ensures var r := SaveOrder(orderId, items, total, now, OrdersArray(os));
      r.Saved? && r.storage.orders == [Order(orderId, now, Completed, ToOrderItems(items), total)] + os[..MaxOrders - 1]
  {
  }

  /** Saving then loading shows the new order first, followed by the previous ones. */
  lemma SaveThenLoad(orderId: string, items: seq<CartItem>, total: int, now: string, s: OrdersState)
    requires !s.storage.OrdersUnusable?
    ensures var r := SaveOrder(orderId, items, total, now, s.storage);
      var loaded := LoadOrders(s.(storage := r.storage)).orders;
      && 1 <= |loaded| <= MaxOrders
      && loaded[0].id == orderId && loaded[0].status == Completed && loaded[0].total == total
  {
  }

  /** What `completeCheckout` resolved to. */
  datatype CompleteResponse = CompleteResponse(success: bool, orderId: Option<string>)

  datatype CompleteOutcome = CompleteRejected(err: JsError) | CompleteResolved(response: CompleteResponse)

  datatype MutationResult = MutationOk(response: CompleteResponse) | MutationFailed(err: JsError) | StorageFailed

  datatype MutationStep = MutationStep(cart: Cart, storage: OrdersStorage, result: MutationResult)

  /** `data.orderId || 'unknown'`. */
  function OrderIdOf(resp: CompleteResponse): string {
    if Truthy(resp.orderId) then resp.orderId.value else UnknownOrderId
  }

  /**
   * `mutationFn`: complete the checkout, then save the order from the cart's
   * current entries and total, then clear the cart. A failure at any step
   * stops the later ones.
   */
  function CheckoutMutation(cart: Cart, storage: OrdersStorage, complete: CompleteOutcome, now: string): (st: MutationStep)
    ensures complete.CompleteRejected? ==> st == MutationStep(cart, storage, MutationFailed(complete.err))
    ensures st.result.MutationOk? ==>
      && complete.CompleteResolved?
      && st.cart.items == [] && st.cart.totalPrice == 0
      && SaveOrder(OrderIdOf(complete.response), cart.items, cart.totalPrice, now, storage) == Saved(st.storage)
    ensures st.result.StorageFailed? ==> st.cart == cart && st.storage == storage
    ensures complete.CompleteResolved? && !storage.OrdersUnusable? ==> st.result == MutationOk(complete.response)
  {
    match complete
    case CompleteRejected(err) => MutationStep(cart, storage, MutationFailed(err))
    case CompleteResolved(resp) =>
      match SaveOrder(OrderIdOf(resp), cart.items, cart.totalPrice, now, storage)
      case SaveThrew => MutationStep(cart, storage, StorageFailed)
      case Saved(stored) => MutationStep(ClearCart(cart), stored, MutationOk(resp))
  }

  /** A missing or empty `orderId` is recorded as "unknown". */
  lemma MissingOrderIdIsUnknown(cart: Cart, storage: OrdersStorage, now: string)
    requires storage.NoOrdersEntry?
    ensures var st := CheckoutMutation(cart, storage, CompleteResolved(CompleteResponse(true, None)), now);
      st.storage.OrdersArray? && st.storage.orders[0].id == UnknownOrderId
  {
  }

  // ----- emptying the cart entry by entry -----

  /**
   * The fallback branch as written: `items.forEach(it => removeFromCart(id))`
   * over the cart's own array. `forEach` fixes the length up front and reads
   * index `k` of the array as it is now, so every removal shifts the next
   * entry under the index just visited.
   */
  function RemoveLiveFrom(c: Cart, k: nat, n: nat): Cart
    decreases n - k
  {
    if k >= n then c
    else if k < |c.items| then RemoveLiveFrom(RemoveFromCart(c, c.items[k].product.id), k + 1, n)
    else RemoveLiveFrom(c, k + 1, n)
  }

  function FallbackClearAsWritten(c: Cart): Cart {
    RemoveLiveFrom(c, 0, |c.items|)
  }

  /** Removing the entry at `k` when `k` is the first index with that id. */
  lemma RemoveAtFirst(c: Cart, k: nat)
    requires k < |c.items| && IndexOf(c.items, c.items[k].product.id) == k
    ensures RemoveFromCart(c, c.items[k].product.id).items == c.items[..k] + c.items[k + 1..]
  {
  }

  /** Three entries A, B, C: the live iteration removes A and C and leaves B. */
  lemma FallbackLeavesEntries(c: Cart, a: CartItem, b: CartItem, d: CartItem)
    requires a.product.id != b.product.id && b.product.id != d.product.id && a.product.id != d.product.id
    requires c.items == [a, b, d]
    ensures FallbackClearAsWritten(c).items == [b]
  {
    var c1 := FirstRemoval(c, a, b, d);
    var c2 := SecondRemoval(c1, b, d);
    assert RemoveLiveFrom(c2, 2, 3) == RemoveLiveFrom(c2, 3, 3);
  }

  lemma FirstRemoval(c: Cart, a: CartItem, b: CartItem, d: CartItem) returns (c1: Cart)
    requires c.items == [a, b, d] && a.product.id != b.product.id && a.product.id != d.product.id
    ensures c1.items == [b, d]
    ensures RemoveLiveFrom(c, 0, 3) == RemoveLiveFrom(c1, 1, 3)
  {
    RemoveAtFirst(c, 0);
    c1 := RemoveFromCart(c, a.product.id);
    assert c.items[..0] + c.items[1..] == [b, d];
  }

  lemma SecondRemoval(c1: Cart, b: CartItem, d: CartItem) returns (c2: Cart)
    requires c1.items == [b, d] && b.product.id != d.product.id
    ensures c2.items == [b]
    ensures RemoveLiveFrom(c1, 1, 3) == RemoveLiveFrom(c2, 2, 3)
  {
    assert IndexOf(c1.items, d.product.id) == 1;
    RemoveAtFirst(c1, 1);
    c2 := RemoveFromCart(c1, d.product.id);
    assert c1.items[..1] + c1.items[2..] == [b];
  }

  /** The intended fallback: remove the id of each entry of a snapshot taken first. */
  function RemoveEach(c: Cart, snapshot: seq<CartItem>): Cart
    decreases |snapshot|
  {
    if snapshot == [] then c else RemoveEach(RemoveFromCart(c, snapshot[0].product.id), snapshot[1..])
  }

  function FallbackClear(c: Cart): Cart {
    RemoveEach(c, c.items)
  }

  /** Removing each entry of a snapshot of a valid cart empties it, with a zero total. */
  lemma {:induction false} FallbackClearEmpties(c: Cart)
    requires ValidItems(c.items)
    ensures FallbackClear(c).items == []
    ensures c.items != [] ==> FallbackClear(c).totalPrice == 0
  {
    RemoveEachEmpties(c, c.items);
  }

  lemma {:induction false} RemoveEachEmpties(c: Cart, snapshot: seq<CartItem>)
    requires c.items == snapshot && ValidItems(snapshot)
    ensures RemoveEach(c, snapshot).items == []
    ensures snapshot != [] ==> RemoveEach(c, snapshot).totalPrice == 0
    decreases |snapshot|
  {
    if snapshot != [] {
      var id := snapshot[0].product.id;
      assert IndexOf(c.items, id) == 0;
      var c1 := RemoveFromCart(c, id);
      assert c1.items == snapshot[1..];
      assert c1.totalPrice == Total(c1.items);
      if snapshot[1..] != [] {
        RemoveEachEmpties(c1, snapshot[1..]);
      } else {
        assert RemoveEach(c1, snapshot[1..]) == c1;
      }
    }
  }
}
