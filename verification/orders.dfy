/**
 * Order history: the `Order` record, what client storage holds under the
 * `orders` key, and the `useOrdersStore` store (fail-soft loading, the
 * transient success flag, clearing).
 */
module Orders {
  import opened Wrappers
  import opened JsText

  datatype OrderStatus = Completed | Pending | Cancelled

  datatype OrderItem = OrderItem(id: int, title: string, image: Option<string>, quantity: int, price: int)

  /** `date` is the ISO timestamp string the order was stamped with. */
  datatype Order = Order(id: string, date: string, status: OrderStatus, items: seq<OrderItem>, total: int)

  /** What client storage holds under the `orders` key. */
  datatype OrdersStorage =
    | NoOrdersEntry
    | OrdersArray(orders: seq<Order>)
    | OrdersUnusable   // not JSON, or JSON that is not an array

  datatype OrdersState = OrdersState(orders: seq<Order>, showSuccess: bool, storage: OrdersStorage)

  /** The store as created: no orders, no banner, whatever storage holds. */
  function Init(storage: OrdersStorage): (s: OrdersState)
    ensures s.orders == [] && !s.showSuccess && s.storage == storage
  {
    OrdersState([], false, storage)
  }

  /**
   * `loadOrders`: the stored list in stored order, or [] when nothing is
   * stored or the stored value cannot be used; it never fails.
   */
  function LoadOrders(s: OrdersState): (r: OrdersState)
    ensures r.showSuccess == s.showSuccess && r.storage == s.storage
    ensures s.storage.OrdersArray? ==> r.orders == s.storage.orders
    ensures !s.storage.OrdersArray? ==> r.orders == []
  {
    match s.storage
    case OrdersArray(os) => s.(orders := os)
    case _ => s.(orders := [])
  }

  function SetShowSuccess(s: OrdersState, v: bool): (r: OrdersState)
    ensures r.showSuccess == v && r.orders == s.orders && r.storage == s.storage
  {
    s.(showSuccess := v)
  }

  /** `clearOrders`: no orders in memory, and the storage key removed. */
  function ClearOrders(s: OrdersState): (r: OrdersState)
    ensures r.orders == [] && r.storage == NoOrdersEntry && r.showSuccess == s.showSuccess
  {
    s.(orders := [], storage := NoOrdersEntry)
  }

  /** After clearing, a reload still finds nothing. */
  lemma ClearThenLoad(s: OrdersState)
    ensures LoadOrders(ClearOrders(s)).orders == []
  {
  }

  /** The status as stored: `'completed' | 'pending' | 'cancelled'`. */
  function StatusName(status: OrderStatus): string {
    match status
    case Completed => "completed"
    case Pending => "pending"
    case Cancelled => "cancelled"
  }

  const CompletedLabel := "Completada"
  const PendingLabel := "Pendiente"
  const CancelledLabel := "Cancelada"

  /**
   * What `labels[status] || String(status)` evaluates to: a string, or, for
   * a name the `labels` literal inherits from `Object.prototype`, that
   * inherited member (a function, or the prototype for `__proto__`).
   */
  datatype LabelValue = Text(s: string) | InheritedMember(name: string)

  /**
   * `getStatusLabel` on a raw status string: the three known statuses get
   * their Spanish label, an inherited property name yields the inherited
   * member, and any other string is returned as is.
   */
  function GetStatusLabel(status: string): (r: LabelValue)
    ensures status == "completed" ==> r == Text(CompletedLabel)
    ensures status == "pending" ==> r == Text(PendingLabel)
    ensures status == "cancelled" ==> r == Text(CancelledLabel)
    ensures status in ObjectPrototypeKeys ==> r == InheritedMember(status)
    ensures status !in {"completed", "pending", "cancelled"} && status !in ObjectPrototypeKeys ==> r == Text(status)
  {
    if status == "completed" then Text(CompletedLabel)
    else if status == "pending" then Text(PendingLabel)
    else if status == "cancelled" then Text(CancelledLabel)
    else if status in ObjectPrototypeKeys then InheritedMember(status)
    else Text(status)
  }

  /** `getStatusLabel` on a well-typed status: always a string, the lookup's label. */
  function StatusLabel(status: OrderStatus): (text: string)
    ensures GetStatusLabel(StatusName(status)) == Text(text)
  {
    match status
    case Completed => CompletedLabel
    case Pending => PendingLabel
    case Cancelled => CancelledLabel
  }

  /**
   * Different statuses get different labels, and no label is a raw status
   * name, so a label is never mistaken for an untranslated status.
   */
  lemma LabelsAreDistinct(a: OrderStatus, b: OrderStatus)
    ensures StatusLabel(a) == StatusLabel(b) ==> a == b
    ensures StatusLabel(a) != StatusName(b)
  {
  }

  /** The table and its fallbacks on sample strings. */
  lemma LabelExamples()
    ensures GetStatusLabel("completed") == Text("Completada")
    ensures GetStatusLabel("pending") == Text("Pendiente")
    ensures GetStatusLabel("cancelled") == Text("Cancelada")
    ensures GetStatusLabel("refunded") == Text("refunded")
    ensures GetStatusLabel("constructor") == InheritedMember("constructor")
  {
  }
}
