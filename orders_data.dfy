/** The admin order table of `src/components/admin/orders-data.tsx`: its
    state, the status update, the re-fetch, the page navigation, the page
    window and the status menu. Server replies are inputs; toasts are the
    returned responses. */
module OrdersData {
  import opened Wrappers
  import opened JsStrings
  import opened DataConfig
  import opened OrderService
  import opened PageWindow
  import Http

  /** The gap marker of the admin table. */
  const Gap: string := "..."

  /** The page sizes the select offers. */
  const PageSizeOptions: seq<int> := [5, 10, 20, 30, 40, 50]

  /** The list with the status of every order carrying `id` replaced. */
  function WithStatus(orders: seq<Order>, id: int, status: OrderStatus): (r: seq<Order>)
    ensures |r| == |orders|
  {
    if orders == [] then []
    else [if orders[0].id == id then orders[0].(status := status) else orders[0]] + WithStatus(orders[1..], id, status)
  }

  /** Only the status of the matching orders changes; every other order and
      every other field stays as it was, in the same order. */
  lemma {:induction false} WithStatusChangesOnlyStatus(orders: seq<Order>, id: int, status: OrderStatus)
    ensures var r := WithStatus(orders, id, status);
      forall i :: 0 <= i < |orders| ==>
        (orders[i].id == id ==> r[i] == orders[i].(status := status)) &&
        (orders[i].id != id ==> r[i] == orders[i])
    decreases |orders|
  {
    if orders != [] {
      WithStatusChangesOnlyStatus(orders[1..], id, status);
    }
  }

  /** Updating to the status the orders already have changes nothing. */
  lemma {:induction false} WithStatusIdempotent(orders: seq<Order>, id: int, status: OrderStatus)
    ensures WithStatus(WithStatus(orders, id, status), id, status) == WithStatus(orders, id, status)
    decreases |orders|
  {
    if orders != [] {
      WithStatusIdempotent(orders[1..], id, status);
      assert WithStatus(orders, id, status)[1..] == WithStatus(orders[1..], id, status);
    }
  }

  /** The statuses offered in an order's menu: none for a completed or
      cancelled order (it shows a plain badge), otherwise every status but
      the current one, in table order. */
  function StatusMenu(current: OrderStatus): (menu: seq<OrderStatus>)
    ensures |menu| == if current == Completed || current == Cancelled then 0 else 4
    ensures forall i, j :: 0 <= i < j < |menu| ==> menu[i] != menu[j]
  {
    if current == Completed || current == Cancelled then []
    else
      (if current != Pending then [Pending] else []) +
      (if current != Processing then [Processing] else []) +
      (if current != Delivering then [Delivering] else []) +
      (if current != Completed then [Completed] else []) +
      (if current != Cancelled then [Cancelled] else [])
  }

  /** The menu exists exactly for orders that are neither completed nor
      cancelled, never offers the current status and offers every other. */
  lemma StatusMenuOffers(current: OrderStatus, s: OrderStatus)
    ensures StatusMenu(current) != [] <==> current != Completed && current != Cancelled
    ensures s in StatusMenu(current) <==> current != Completed && current != Cancelled && s != current
  {
  }

  /** The parameters of the `getOrders` call: the current page and size,
      newest first, and the variant's status unless the variant is "all".
      For "all" the source passes `status: undefined`, which the server
      action's argument encoding drops, so the key is absent here. */
  function OrderQuery(page: int, pageSize: int, variant: Option<OrderStatus>): (query: seq<Http.Param>)
    ensures |query| == if variant.Some? then 5 else 4
    ensures forall i :: 0 <= i < |query| ==> query[i].value.Scalar?
  {
    [Http.Param("page", Http.Scalar(IntToString(page))),
     Http.Param("pageSize", Http.Scalar(IntToString(pageSize))),
     Http.Param("sortField", Http.Scalar("createdAt")),
     Http.Param("sortBy", Http.Scalar("desc"))] +
    (if variant.Some? then [Http.Param("status", Http.Scalar(StatusKey(variant.value)))] else [])
  }

  /** Building the query of a fetch never throws, sorts newest first, and
      filters by status exactly when the table shows one status. */
  lemma OrderQueryPairs(page: int, pageSize: int, variant: Option<OrderStatus>)
    ensures var q := Http.QueryPairs(OrderQuery(page, pageSize, variant));
      q.Some? && |q.value| >= 4 &&
      q.value[..4] == [Http.QueryPair("page", IntToString(page)), Http.QueryPair("pageSize", IntToString(pageSize)),
                       Http.QueryPair("sortField", "createdAt"), Http.QueryPair("sortBy", "desc")] &&
      (variant.Some? <==> |q.value| == 5) &&
      (variant.Some? ==> q.value[4] == Http.QueryPair("status", StatusKey(variant.value)))
  {
    var p1, p2 := Http.Param("page", Http.Scalar(IntToString(page))), Http.Param("pageSize", Http.Scalar(IntToString(pageSize)));
    var p3, p4 := Http.Param("sortField", Http.Scalar("createdAt")), Http.Param("sortBy", Http.Scalar("desc"));
    var tail := if variant.Some? then [Http.Param("status", Http.Scalar(StatusKey(variant.value)))] else [];
    Http.QueryPairsOfOne(p1);
    Http.QueryPairsOfOne(p2);
    Http.QueryPairsOfOne(p3);
    Http.QueryPairsOfOne(p4);
    if variant.Some? {
      Http.QueryPairsOfOne(tail[0]);
    }
    Http.QueryPairsAppend([p1], [p2]);
    Http.QueryPairsAppend([p1] + [p2], [p3]);
    Http.QueryPairsAppend([p1] + [p2] + [p3], [p4]);
    Http.QueryPairsAppend([p1] + [p2] + [p3] + [p4], tail);
    assert [p1] + [p2] + [p3] + [p4] == [p1, p2, p3, p4];
  }

  class OrdersTable {
    var ordersData: seq<Order>
    var selectedOrder: Option<Order>
    var page: int
    var pageSize: int
    var totalCount: int
    var updatingStatus: Option<int>
    var loading: bool
    var refreshing: bool
    /** The `variant` prop: a status, or `None` for "all". */
    const variant: Option<OrderStatus>

    predicate Valid()
      reads this
    {
      pageSize > 0
    }

    /** The state seeded from the list the server page rendered with. */
    constructor (data: seq<Order>, initialPage: int, initialPageSize: int, initialTotal: int, variant: Option<OrderStatus>)
      requires initialPageSize > 0
      ensures Valid()
      ensures ordersData == data && page == initialPage && pageSize == initialPageSize && totalCount == initialTotal
      ensures selectedOrder.None? && updatingStatus.None? && !loading && !refreshing && this.variant == variant
    {
      ordersData := data;
      selectedOrder := None;
      page := initialPage;
      pageSize := initialPageSize;
      totalCount := initialTotal;
      updatingStatus := None;
      loading := false;
      refreshing := false;
      this.variant := variant;
    }

    /** `Math.ceil(totalCount / pageSize)`. */
    function TotalPagesNow(): int
      reads this
      requires Valid()
    {
      TotalPages(totalCount, pageSize)
    }

    /** `prev.map(order => order.id === orderId ? {...order, status} : order)`. */
    static method MapStatus(orders: seq<Order>, id: int, status: OrderStatus) returns (r: seq<Order>)
      ensures r == WithStatus(orders, id, status)
    {
      r := [];
      var i := |orders|;
      while i > 0
        invariant 0 <= i <= |orders|
        invariant r == WithStatus(orders[i..], id, status)
      {
        i := i - 1;
        var o := orders[i];
        assert orders[i..][1..] == orders[i + 1..];
        r := [if o.id == id then o.(status := status) else o] + r;
      }
    }

    /** `handleStatusUpdate(orderId, newStatus)` given the server's reply
      to the PATCH: on success only that order's status changes; in both
      cases the spinner is cleared and the response is returned for the
      toast. */
    method HandleStatusUpdate(orderId: int, newStatus: OrderStatus, status: int, payload: Payload)
      returns (response: BooleanResponse)
      modifies this
      ensures response == UpdateOrderStatus(status, payload)
      ensures ordersData == if response.success then WithStatus(old(ordersData), orderId, newStatus) else old(ordersData)
      ensures updatingStatus.None?
      ensures forall o: Order :: !MenuDisabled(o)
      ensures selectedOrder == old(selectedOrder) && page == old(page) && pageSize == old(pageSize)
      ensures totalCount == old(totalCount) && loading == old(loading) && refreshing == old(refreshing)
    {
      updatingStatus := Some(orderId);
      response := UpdateOrderStatus(status, payload);
      if response.success {
        ordersData := MapStatus(ordersData, orderId, newStatus);
      }
      updatingStatus := None;
    }

    /** `fetchOrders(isRefresh)` given the reply to `getOrders`: a list
      reply replaces the orders and the count, anything else keeps them;
      the flag that was raised is lowered again. */
    method FetchOrders(isRefresh: bool, status: int, payload: Payload)
      modifies this
      requires payload.data.Some? ==> payload.totalCount.Some?
      ensures GetOrders(status, payload).Some? ==>
        ordersData == payload.data.value && totalCount == payload.totalCount.value
      ensures GetOrders(status, payload).None? ==>
        ordersData == old(ordersData) && totalCount == old(totalCount)
      ensures !(if isRefresh then refreshing else loading)
      ensures (if isRefresh then loading else refreshing) == old(if isRefresh then loading else refreshing)
      ensures page == old(page) && pageSize == old(pageSize) && selectedOrder == old(selectedOrder)
      ensures updatingStatus == old(updatingStatus)
    {
      if isRefresh {
        refreshing := true;
      } else {
        loading := true;
      }
      var response := GetOrders(status, payload);
      if response.Some? {
        ordersData := response.value.data.value;
        totalCount := response.value.totalCount.value;
      }
      if isRefresh {
        refreshing := false;
      } else {
        loading := false;
      }
    }

    /** The page-size select: the chosen size, back to page 1. */
    method ChangePageSize(size: int)
      modifies this
      requires size in PageSizeOptions
      ensures Valid()
      ensures pageSize == size && page == 1
      ensures ordersData == old(ordersData) && totalCount == old(totalCount) && selectedOrder == old(selectedOrder)
      ensures updatingStatus == old(updatingStatus) && loading == old(loading) && refreshing == old(refreshing)
    {
      pageSize := size;
      page := 1;
    }

    /** "Previous": one page back unless on the first page. */
    method PreviousPage()
      modifies this
      requires Valid()
      ensures Valid()
      ensures page == if old(page) > 1 then old(page) - 1 else old(page)
      ensures 1 <= old(page) <= TotalPagesNow() ==> 1 <= page <= TotalPagesNow()
      ensures pageSize == old(pageSize) && totalCount == old(totalCount) && ordersData == old(ordersData)
      ensures selectedOrder == old(selectedOrder)
      ensures updatingStatus == old(updatingStatus) && loading == old(loading) && refreshing == old(refreshing)
    {
      if page > 1 {
        page := page - 1;
      }
    }

    /** "Next": one page on unless on the last page. */
    method NextPage()
      modifies this
      requires Valid()
      ensures Valid()
      ensures page == if old(page) < old(TotalPagesNow()) then old(page) + 1 else old(page)
      ensures 1 <= old(page) <= TotalPagesNow() ==> 1 <= page <= TotalPagesNow()
      ensures pageSize == old(pageSize) && totalCount == old(totalCount) && ordersData == old(ordersData)
      ensures selectedOrder == old(selectedOrder)
      ensures updatingStatus == old(updatingStatus) && loading == old(loading) && refreshing == old(refreshing)
    {
      if page < TotalPagesNow() {
        page := page + 1;
      }
    }

    /** A numbered link of the window: that page, which is a real page. */
    method SelectPage(n: int)
      modifies this
      requires Valid()
      requires PageNumber(n) in Window(page, TotalPagesNow(), Gap)
      ensures Valid()
      ensures page == n && 1 <= page <= TotalPagesNow()
      ensures pageSize == old(pageSize) && totalCount == old(totalCount) && ordersData == old(ordersData)
      ensures selectedOrder == old(selectedOrder)
      ensures updatingStatus == old(updatingStatus) && loading == old(loading) && refreshing == old(refreshing)
    {
      WindowShape(page, TotalPagesNow(), Gap);
      page := n;
    }

    /** Clicking a row opens the detail dialog on that order. */
    method SelectOrder(order: Order)
      modifies this
      ensures selectedOrder == Some(order)
      ensures ordersData == old(ordersData) && page == old(page) && pageSize == old(pageSize) && totalCount == old(totalCount)
      ensures updatingStatus == old(updatingStatus) && loading == old(loading) && refreshing == old(refreshing)
    {
      selectedOrder := Some(order);
    }

    /** The dialog's close handler: `setOrder(null)`. */
    method CloseDetail()
      modifies this
      ensures selectedOrder.None?
      ensures ordersData == old(ordersData) && page == old(page) && pageSize == old(pageSize) && totalCount == old(totalCount)
      ensures updatingStatus == old(updatingStatus) && loading == old(loading) && refreshing == old(refreshing)
    {
      selectedOrder := None;
    }

    /** `updatingStatus === order.id`, where `updatingStatus` is an order
      id or `null`: the menu entries of an order are disabled while its
      own update is in flight. */
    function MenuDisabled(order: Order): (disabled: bool)
      reads this
      ensures disabled <==> updatingStatus == Some(order.id)
    {
      match updatingStatus
      case None => false
      case Some(id) => id == order.id
    }

    /** While an update is in flight, only the order it is for has its
      entries disabled. */
    lemma OnlyPendingOrderDisabled(a: Order, b: Order)
      requires MenuDisabled(a)
      ensures MenuDisabled(b) <==> b.id == a.id
    {
    }
  }
}
