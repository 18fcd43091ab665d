/** The purchase-history page: status labels and colours, and its placeholder loader. */
module OrdersPage {
  import opened Wrappers

  const Pending: string := "pending"
  const Completed: string := "completed"
  const Cancelled: string := "cancelled"
  const UnknownText: string := "未知"
  const UnknownColor: string := "#64748b"

  /** A purchase record; its fields beyond the status are not used by any logic. */
  datatype OrderItem = OrderItem(id: int, collectionId: int, quantity: int, status: string)

  datatype OrdersState = OrdersState(orders: seq<OrderItem>, loading: bool, error: Option<string>)

  /** `getStatusText` */
  function StatusText(status: string): (text: string)
    ensures text == UnknownText <==> status != Pending && status != Completed && status != Cancelled
  {
    if status == Pending then "待处理"
    else if status == Completed then "已完成"
    else if status == Cancelled then "已取消"
    else UnknownText
  }

  /** `getStatusColor` */
  function StatusColor(status: string): (color: string)
    ensures color == UnknownColor <==> status != Pending && status != Completed && status != Cancelled
  {
    if status == Pending then "#f59e0b"
    else if status == Completed then "#10b981"
    else if status == Cancelled then "#ef4444"
    else UnknownColor
  }

  /** Text and colour classify statuses the same way: equal texts exactly when equal colours. */
  lemma TextAndColorAgree(a: string, b: string)
    ensures StatusText(a) == StatusText(b) <==> StatusColor(a) == StatusColor(b)
  {
  }

  /** The three known statuses get three different texts. */
  lemma KnownStatusesDistinct()
    ensures StatusText(Pending) != StatusText(Completed)
    ensures StatusText(Pending) != StatusText(Cancelled)
    ensures StatusText(Completed) != StatusText(Cancelled)
  {
  }

  /** The page's first state. */
  const InitialOrders: OrdersState := OrdersState([], true, None)

  /** `loadOrders`: the gateway call does not exist yet, so the list is always emptied. */
  function LoadOrders(prev: OrdersState): (next: OrdersState)
    ensures next.orders == [] && !next.loading && next.error == None
  {
    prev.(loading := true, error := None).(orders := []).(loading := false)
  }
}
