/** The fake executor (backend/execution/fake_executor.py): a per-order status map that
    fills every submitted order at once, with no exchange behind it. */
module FakeExecutor {
  import opened Payloads
  import opened EventBus
  import opened Orders
  import Seqs

  datatype Executor = Executor(orders: map<string, Order>)

  const Source: string := "FakeExecutor"

  function NewExecutor(): Executor
  {
    Executor(map[])
  }

  /** The ORDER_SUBMITTED payload of a stored order. */
  function SubmittedPayload(o: Order): Payload
  {
    map["order_id" := Str(o.orderId), "symbol" := Str(o.symbol), "side" := Str(SideName(o.side)),
        "quantity" := Num(o.quantity)]
  }

  /** `submit_order` with `freshId` standing for the drawn uuid: the order is stored under the
      id, filled, and announced as ORDER_SUBMITTED then ORDER_FILLED; the fill price is the
      order's own price, with no slippage. */
  function SubmitOrder(ex: Executor, order: Order, freshId: string): (r: (Executor, string, seq<Event>))
    ensures r.1 == freshId
    ensures freshId in r.0.orders && r.0.orders[freshId].status == Filled
    ensures r.0.orders[freshId] == order.(orderId := freshId, status := Filled)
    ensures forall id :: id in ex.orders && id != freshId ==> id in r.0.orders && r.0.orders[id] == ex.orders[id]
    ensures r.0.orders.Keys == ex.orders.Keys + {freshId}
    ensures |r.2| == 2 && r.2[0].kind == OrderSubmitted && r.2[1].kind == OrderFilled
    ensures r.2[0].source == Source && r.2[1].source == Source
    ensures r.2[1].data.Keys == {"order_id", "symbol", "side", "quantity", "price", "fake"}
    ensures r.2[0].data.Keys == {"order_id", "symbol", "side", "quantity"}
    ensures r.2[0].data["order_id"] == r.2[1].data["order_id"] == Str(freshId)
    ensures r.2[1].data["price"] == Num(order.price) && r.2[1].data["fake"] == Bool(true)
    ensures forall k :: k in r.2[0].data ==> r.2[1].data[k] == r.2[0].data[k]
  {
    var stored := order.(orderId := freshId, status := Filled);
    var submitted := SubmittedPayload(stored);
    var filled := submitted["price" := Num(stored.price)]["fake" := Bool(true)];
    (Executor(ex.orders[freshId := stored]), freshId,
     [Event(OrderSubmitted, submitted, Source), Event(OrderFilled, filled, Source)])
  }

  /** `cancel_order`: an unknown id is refused with no change; a known id becomes cancelled,
      whatever its status was, and nothing else changes. */
  function CancelOrder(ex: Executor, orderId: string): (r: (Executor, bool))
    ensures r.1 <==> orderId in ex.orders
    ensures !r.1 ==> r.0 == ex
    ensures r.1 ==> orderId in r.0.orders && r.0.orders[orderId] == ex.orders[orderId].(status := Cancelled)
    ensures r.0.orders.Keys == ex.orders.Keys
    ensures forall id :: id in ex.orders && id != orderId ==> r.0.orders[id] == ex.orders[id]
  {
    if orderId !in ex.orders then (ex, false)
    else (Executor(ex.orders[orderId := ex.orders[orderId].(status := Cancelled)]), true)
  }

  /** `get_order_status`: None for an unknown id. */
  function GetOrderStatus(ex: Executor, orderId: string): (r: Option<OrderStatus>)
    ensures r.None? <==> orderId !in ex.orders
    ensures r.Some? ==> r.value == ex.orders[orderId].status
  {
    if orderId !in ex.orders then None else Some(ex.orders[orderId].status)
  }

  /** `get_stats`' `total_orders`. */
  function TotalOrders(ex: Executor): nat
  {
    |ex.orders|
  }

  /** A submission then a status query on the returned id answers FILLED; a cancel after it
      answers CANCELLED. */
  lemma SubmitThenStatus(ex: Executor, order: Order, freshId: string)
    ensures var (ex', id, _) := SubmitOrder(ex, order, freshId);
      GetOrderStatus(ex', id) == Some(Filled) &&
      CancelOrder(ex', id).1 && GetOrderStatus(CancelOrder(ex', id).0, id) == Some(Cancelled)
  {
  }

  /** Submitting the orders in turn, each with its id from the supply. */
  function SubmitAll(ex: Executor, orders: seq<Order>, ids: seq<string>): (r: Executor)
    requires |ids| == |orders|
    decreases |orders|
  {
    if orders == [] then ex
    else SubmitAll(SubmitOrder(ex, orders[0], ids[0]).0, orders[1..], ids[1..])
  }

  /** With a supply of distinct ids none of which is already in use (what uuid4 is relied on
      for), `total_orders` grows by exactly the number of submissions. */
  lemma {:induction false} TotalCountsSubmissions(ex: Executor, orders: seq<Order>, ids: seq<string>)
    requires |ids| == |orders|
    requires Seqs.Distinct(ids)
    requires forall id :: id in ids ==> id !in ex.orders
    ensures TotalOrders(SubmitAll(ex, orders, ids)) == TotalOrders(ex) + |orders|
    decreases |orders|
  {
    if orders != [] {
      var ex' := SubmitOrder(ex, orders[0], ids[0]).0;
      assert |ex'.orders| == |ex.orders| + 1;
      TailOfFreshIds(ex, ex', ids);
      TotalCountsSubmissions(ex', orders[1..], ids[1..]);
    }
  }

  /** After the first id of a distinct fresh supply is used, the rest of the supply is still
      distinct and fresh. */
  lemma TailOfFreshIds(ex: Executor, ex': Executor, ids: seq<string>)
    requires ids != [] && Seqs.Distinct(ids)
    requires forall id :: id in ids ==> id !in ex.orders
    requires ex'.orders.Keys == ex.orders.Keys + {ids[0]}
    ensures Seqs.Distinct(ids[1..])
    ensures forall id :: id in ids[1..] ==> id !in ex'.orders
  {
    assert forall i :: 0 <= i < |ids[1..]| ==> ids[1..][i] == ids[i + 1];
  }
}
