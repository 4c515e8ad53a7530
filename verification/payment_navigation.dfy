/**
 * `usePaymentNavigation`: the product id carried from the cart summary to
 * the checkout page, and the checkout location built from it.
 */
module PaymentNavigation {
  import opened Wrappers
  import opened JsText
  import opened ErrorHandler
  import opened CartStore

  const CheckoutPath := "/checkout"
  const ProductIdKey := "productId"
  const ReturnToKey := "returnTo"

  /**
   * The watcher on the `productId` query parameter: a missing or empty
   * parameter, or one that is not a number, gives null.
   */
  function OnQueryChange(param: Option<string>): (id: Option<int>)
    ensures id.Some? <==> Truthy(param) && ToNumber(param.value).Finite?
    ensures id.Some? ==> ToNumber(param.value) == Finite(id.value)
  {
    var n := if Truthy(param) then ToNumber(param.value) else NaN;
    match n
    case Finite(v) => Some(v)
    case NaN => None
  }

  /**
   * The initial `productId` as written: the argument if there is one, else
   * `Number` of a non-empty query parameter, else null. A parameter that is
   * not a number is kept as `NaN`.
   */
  function InitialProductIdAsWritten(initial: Option<int>, param: Option<string>): (id: Option<JsNum>)
    ensures initial.Some? ==> id == Some(Finite(initial.value))
    ensures initial.None? ==> (id.Some? <==> Truthy(param))
    ensures initial.None? && Truthy(param) ==> id == Some(ToNumber(param.value))
  {
    if initial.Some? then Some(Finite(initial.value))
    else if Truthy(param) then Some(ToNumber(param.value))
    else None
  }

  /** With `?productId=abc` the initial value is `NaN`, which the watcher would have turned into null. */
  lemma InitialKeepsNaN()
    ensures InitialProductIdAsWritten(None, Some("abc")) == Some(NaN)
    ensures OnQueryChange(Some("abc")) == None
    ensures NumToString(InitialProductIdAsWritten(None, Some("abc")).value) == "NaN"
  {
    assert Trim("abc") == "abc" by { TrimOfSpaceFree("abc"); }
    assert !IsDigit('a');
    assert !AllDigits("abc");
  }

  /**
   * The initial `productId` with the same conversion the watcher applies:
   * the argument if there is one, else the query parameter read as the
   * watcher reads it.
   */
  function InitialProductId(initial: Option<int>, param: Option<string>): (id: Option<int>)
    ensures initial.Some? ==> id == initial
    ensures initial.None? ==> id == OnQueryChange(param)
  {
    if initial.Some? then initial else OnQueryChange(param)
  }

  /** Both readings agree except where the as-written one keeps `NaN`. */
  lemma InitialProductIdAgrees(initial: Option<int>, param: Option<string>)
    ensures var w := InitialProductIdAsWritten(initial, param);
      && (w.Some? && w.value.Finite? <==> InitialProductId(initial, param).Some?)
      && (w.Some? && w.value.Finite? ==> InitialProductId(initial, param) == Some(w.value.v))
  {
  }

  /** What `setProductId` may be called with. */
  datatype IdArg = NumArg(n: int) | NullArg | UndefinedArg

  /** `setProductId`: numbers are kept, null and undefined become null. */
  function SetProductId(arg: IdArg): (id: Option<int>)
    ensures id.Some? <==> arg.NumArg?
    ensures arg.NumArg? ==> id.value == arg.n
  {
    match arg
    case NumArg(n) => Some(n)
    case _ => None
  }

  /** `canBeginPayment`. */
  function CanBeginPayment(items: seq<CartItem>): (b: bool)
    ensures b <==> items != []
  {
    |items| > 0
  }

  /** `productIdString`: '' for null, the decimal spelling otherwise. */
  function ProductIdString(id: Option<int>): (s: string)
    ensures s == "" <==> id.None?
    ensures id.Some? ==> ToNumber(s) == Finite(id.value)
  {
    match id
    case None => ""
    case Some(n) =>
      NumberOfIntToString(n);
      IntToString(n)
  }

  datatype Location = Location(path: string, query: map<string, string>)

  /** The effects of `goToCheckout`: the push, if any, and whether a warning was logged. */
  datatype GoResult = GoResult(push: Option<Location>, warned: bool)

  /**
   * `goToCheckout(opts)`: nothing with an empty cart; otherwise a push to
   * `/checkout` whose query carries the product id only when it names an
   * entry of the cart, and `returnTo` only when it is non-empty.
   */
  function GoToCheckout(items: seq<CartItem>, productId: Option<int>, returnTo: Option<string>): (g: GoResult)
    ensures g.push.None? <==> !CanBeginPayment(items)
    ensures g.push.Some? ==>
      && g.push.value.path == CheckoutPath
      && g.push.value.query.Keys <= {ProductIdKey, ReturnToKey}
      && (ProductIdKey in g.push.value.query <==> productId.Some? && HasId(items, productId.value))
      && (ProductIdKey in g.push.value.query ==> g.push.value.query[ProductIdKey] == IntToString(productId.value))
      && (ReturnToKey in g.push.value.query <==> Truthy(returnTo))
      && (ReturnToKey in g.push.value.query ==> g.push.value.query[ReturnToKey] == returnTo.value)
    ensures g.warned <==> CanBeginPayment(items) && productId.Some? && !HasId(items, productId.value)
  {
    if !CanBeginPayment(items) then GoResult(None, false)
    else
      var withId: map<string, string> :=
        if productId.Some? && HasId(items, productId.value) then map[ProductIdKey := IntToString(productId.value)]
        else map[];
      var query := if Truthy(returnTo) then withId[ReturnToKey := returnTo.value] else withId;
      GoResult(Some(Location(CheckoutPath, query)), productId.Some? && !HasId(items, productId.value))
  }

  /**
   * The id placed in the checkout query is read back unchanged by the
   * watcher on the checkout page.
   */
  lemma {:induction false} QueryIdRoundTrip(items: seq<CartItem>, productId: Option<int>, returnTo: Option<string>)
    requires GoToCheckout(items, productId, returnTo).push.Some?
    requires ProductIdKey in GoToCheckout(items, productId, returnTo).push.value.query
    ensures OnQueryChange(Some(GoToCheckout(items, productId, returnTo).push.value.query[ProductIdKey])) == productId
  {
    var s := IntToString(productId.value);
    NumberOfIntToString(productId.value);
    assert Truthy(Some(s));
  }
}
