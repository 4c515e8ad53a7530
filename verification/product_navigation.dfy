/**
 * `useProductNavigation` (the variant with a logger): argument checks and
 * the route pushed for a product, a product by ids, or a category. The
 * router's answer is an input.
 */
module ProductNavigation {
  import opened Wrappers
  import opened JsText
  import opened Catalog
  import opened ErrorHandler

  datatype Route =
    | ProductDetail(categoryId: string, id: string)    // named route `productDetail`
    | ProductsByCategory(category: string)             // named route `productsByCategory`

  /** How `router.push` settles. */
  datatype PushOutcome = PushOk | PushRejected(err: JsError)

  datatype LogLevel = LogError | LogDebug

  datatype LogEntry = LogEntry(level: LogLevel, text: string, err: Option<JsError>)

  /** What a navigate call did: the route pushed, the error it threw, the log lines. */
  datatype NavRun = NavRun(pushed: Option<Route>, thrown: Option<JsError>, logs: seq<LogEntry>)

  const ProductMissingMessage := "navigateToProduct: product or product.id is missing"
  const CategoryMissingMessage := "navigateToProduct: product.category.id is missing"
  const IdsRequiredMessage := "navigateToProductById: categoryId and productId are required"
  const SlugRequiredMessage := "navigateToCategory: categorySlug is required"

  /** `product.category?.id`, with 0 standing for every falsy value. */
  function CategoryIdOf(p: Product): int {
    if p.category.Some? then p.category.value.id else 0
  }

  /** The product passes both checks of `navigateToProduct`. */
  predicate Routable(product: Option<Product>) {
    product.Some? && product.value.id != 0 && CategoryIdOf(product.value) != 0
  }

  /** The route for a routable product: both ids in decimal. */
  function ProductRoute(p: Product): Route {
    ProductDetail(IntToString(CategoryIdOf(p)), IntToString(p.id))
  }

  /** A push that rethrows the router's failure unchanged. */
  function Push(route: Route, push: PushOutcome, failureLog: string, debug: seq<LogEntry>): (r: NavRun)
    ensures r.pushed == Some(route)
    ensures r.thrown.None? <==> push.PushOk?
    ensures push.PushRejected? ==> r.thrown == Some(push.err)
  {
    match push
    case PushOk => NavRun(Some(route), None, debug)
    case PushRejected(err) => NavRun(Some(route), Some(err), debug + [LogEntry(LogError, failureLog, Some(err))])
  }

  /** A check that fails: the error is logged, then thrown, and nothing is pushed. */
  function Reject(context: string, message: string): (r: NavRun)
    ensures r.pushed.None? && r.thrown == Some(ErrorOf(message))
  {
    NavRun(None, Some(ErrorOf(message)), [LogEntry(LogError, context, Some(ErrorOf(message)))])
  }

  /**
   * `navigateToProduct(product)`: a missing product or a falsy id, then a
   * falsy category id, are rejected before any routing; otherwise the
   * product's detail route is pushed.
   */
  function NavigateToProduct(product: Option<Product>, push: PushOutcome): (r: NavRun)
    ensures (product.None? || product.value.id == 0) ==> r.pushed.None? && r.thrown == Some(ErrorOf(ProductMissingMessage))
    ensures product.Some? && product.value.id != 0 && CategoryIdOf(product.value) == 0 ==>
      r.pushed.None? && r.thrown == Some(ErrorOf(CategoryMissingMessage))
    ensures Routable(product) ==> r.pushed == Some(ProductRoute(product.value))
    ensures Routable(product) ==> (r.thrown.None? <==> push.PushOk?) && (push.PushRejected? ==> r.thrown == Some(push.err))
  {
    var context := "[useProductNavigation] navigateToProduct error";
    if product.None? || product.value.id == 0 then Reject(context, ProductMissingMessage)
    else if CategoryIdOf(product.value) == 0 then Reject(context, CategoryMissingMessage)
    else
      var line := LogEntry(LogDebug, "[useProductNavigation] navigateToProduct: " + IntToString(product.value.id), None);
      Push(ProductRoute(product.value), push, "Failed to navigate to product", [line, line])
  }

  /** `navigateToProductById(categoryId, productId)`: both strings must be non-empty and are passed on as given. */
  function NavigateToProductById(categoryId: string, productId: string, push: PushOutcome): (r: NavRun)
    ensures (categoryId == "" || productId == "") ==> r.pushed.None? && r.thrown == Some(ErrorOf(IdsRequiredMessage))
    ensures categoryId != "" && productId != "" ==>
      && r.pushed == Some(ProductDetail(categoryId, productId))
      && (r.thrown.None? <==> push.PushOk?)
      && (push.PushRejected? ==> r.thrown == Some(push.err))
  {
    if categoryId == "" || productId == "" then
      Reject("[useProductNavigation] navigateToProductById error", IdsRequiredMessage)
    else
      var line := LogEntry(LogDebug, "[useProductNavigation] navigateToProductById: cat=" + categoryId + ", prod=" + productId, None);
      Push(ProductDetail(categoryId, productId), push, "Failed to navigate to product by id", [line])
  }

  /** `navigateToCategory(slug)`: a non-empty slug is pushed as the `category` parameter. */
  function NavigateToCategory(slug: string, push: PushOutcome): (r: NavRun)
    ensures slug == "" ==> r.pushed.None? && r.thrown == Some(ErrorOf(SlugRequiredMessage))
    ensures slug != "" ==>
      && r.pushed == Some(ProductsByCategory(slug))
      && (r.thrown.None? <==> push.PushOk?)
      && (push.PushRejected? ==> r.thrown == Some(push.err))
  {
    if slug == "" then Reject("[useProductNavigation] navigateToCategory error", SlugRequiredMessage)
    else
      var line := LogEntry(LogDebug, "[useProductNavigation] navigateToCategory: " + slug, None);
      Push(ProductsByCategory(slug), push, "Failed to navigate to category", [line, line])
  }

  /**
   * The route parameters of a product read back as its ids, and pushing
   * them by id reaches the same route.
   */
  lemma ProductRouteRoundTrip(p: Product, push: PushOutcome)
    requires Routable(Some(p))
    ensures ToNumber(ProductRoute(p).categoryId) == Finite(CategoryIdOf(p))
    ensures ToNumber(ProductRoute(p).id) == Finite(p.id)
    ensures NavigateToProductById(ProductRoute(p).categoryId, ProductRoute(p).id, push).pushed
         == NavigateToProduct(Some(p), push).pushed
  {
    NumberOfIntToString(CategoryIdOf(p));
    NumberOfIntToString(p.id);
  }

  /** The example of the product with id 1 in category 2. */
  lemma ProductExample(title: string, price: int, name: string)
    ensures var r := NavigateToProduct(Some(Product(1, title, price, Some(Category(2, name)), [])), PushOk);
      r.pushed == Some(ProductDetail("2", "1")) && r.thrown.None? && |r.logs| == 2
    ensures NavigateToProduct(Some(Product(0, title, price, Some(Category(2, name)), [])), PushOk).thrown
         == Some(ErrorOf(ProductMissingMessage))
  {
    assert IntToString(1) == "1";
    assert IntToString(2) == "2";
  }
}

/**
 * The older `useProductNavigation` without the logger: the same checks and
 * routes, with `console.error` only when the router fails.
 */
module LegacyProductNavigation {
  import opened Wrappers
  import opened Catalog
  import opened ErrorHandler
  import opened ProductNavigation

  function PushQuiet(route: Route, push: PushOutcome, failureLog: string): (r: NavRun)
    ensures r.pushed == Some(route)
    ensures r.thrown.None? <==> push.PushOk?
    ensures push.PushRejected? ==> r.thrown == Some(push.err)
  {
    match push
    case PushOk => NavRun(Some(route), None, [])
    case PushRejected(err) => NavRun(Some(route), Some(err), [LogEntry(LogError, failureLog, Some(err))])
  }

  function Throw(message: string): (r: NavRun)
    ensures r.pushed.None? && r.thrown == Some(ErrorOf(message)) && r.logs == []
  {
    NavRun(None, Some(ErrorOf(message)), [])
  }

  function NavigateToProduct(product: Option<Product>, push: PushOutcome): (r: NavRun)
    ensures !Routable(product) ==> r.pushed.None? && r.thrown.Some? && r.logs == []
    ensures Routable(product) ==> r.pushed == Some(ProductRoute(product.value))
  {
    if product.None? || product.value.id == 0 then Throw(ProductMissingMessage)
    else if CategoryIdOf(product.value) == 0 then Throw(CategoryMissingMessage)
    else PushQuiet(ProductRoute(product.value), push, "Failed to navigate to product")
  }

  function NavigateToProductById(categoryId: string, productId: string, push: PushOutcome): (r: NavRun)
    ensures (categoryId == "" || productId == "") ==> r.pushed.None? && r.thrown == Some(ErrorOf(IdsRequiredMessage))
    ensures categoryId != "" && productId != "" ==> r.pushed == Some(ProductDetail(categoryId, productId))
  {
    if categoryId == "" || productId == "" then Throw(IdsRequiredMessage)
    else PushQuiet(ProductDetail(categoryId, productId), push, "Failed to navigate to product by id")
  }

  function NavigateToCategory(slug: string, push: PushOutcome): (r: NavRun)
    ensures slug == "" ==> r.pushed.None? && r.thrown == Some(ErrorOf(SlugRequiredMessage))
    ensures slug != "" ==> r.pushed == Some(ProductsByCategory(slug))
  {
    if slug == "" then Throw(SlugRequiredMessage)
    else PushQuiet(ProductsByCategory(slug), push, "Failed to navigate to category")
  }

  /** Apart from what they log, both variants push the same route and throw the same error. */
  lemma VariantsAgree(product: Option<Product>, categoryId: string, productId: string, slug: string, push: PushOutcome)
    ensures NavigateToProduct(product, push).pushed == ProductNavigation.NavigateToProduct(product, push).pushed
    ensures NavigateToProduct(product, push).thrown == ProductNavigation.NavigateToProduct(product, push).thrown
    ensures NavigateToProductById(categoryId, productId, push).pushed
         == ProductNavigation.NavigateToProductById(categoryId, productId, push).pushed
    ensures NavigateToProductById(categoryId, productId, push).thrown
         == ProductNavigation.NavigateToProductById(categoryId, productId, push).thrown
    ensures NavigateToCategory(slug, push).pushed == ProductNavigation.NavigateToCategory(slug, push).pushed
    ensures NavigateToCategory(slug, push).thrown == ProductNavigation.NavigateToCategory(slug, push).thrown
  {
  }
}
