/**
 * The two status buttons of an order row. Each asks the service to flip its flag and,
 * once the server accepts, tells the list the new value.
 */
module OrderStatusButtons {
  import opened Wrappers
  import opened Http
  import opened OrderStatusService
  import OrdersByDate

  /** The `onStatusChange` call: the order, the flag, and its new value. */
  datatype StatusChange = StatusChange(orderId: int, flag: OrdersByDate.StatusFlag, newStatus: bool)

  /** What a press does: the request it sends, and the callback it makes if any. */
  datatype Press = Press(sent: UpdateOrderStatusDto, callback: Option<StatusChange>)

  /**
   * `handlePaidStatusChange`, given how the PATCH ended: an unpaid order is marked paid,
   * a paid one unmarked, and the callback reports the flipped value only on success.
   */
  function PaidPress(orderId: int, isPaid: bool, response: Outcome<int>): (p: Press)
    ensures OnlyPaid(p.sent, !isPaid) && p.sent.orderId == orderId
    ensures p.callback.Some? <==> UpdateOrderStatus(response)
    ensures p.callback.Some? ==> p.callback.value == StatusChange(orderId, OrdersByDate.Paid, !isPaid)
  {
    var dto := if !isPaid then MarkAsPaid(orderId) else UnmarkAsPaid(orderId);
    Press(dto, if UpdateOrderStatus(response) then Some(StatusChange(orderId, OrdersByDate.Paid, !isPaid)) else None)
  }

  /** `handleServedStatusChange`, the same for the served flag. */
  function ServedPress(orderId: int, isServed: bool, response: Outcome<int>): (p: Press)
    ensures OnlyServed(p.sent, !isServed) && p.sent.orderId == orderId
    ensures p.callback.Some? <==> UpdateOrderStatus(response)
    ensures p.callback.Some? ==> p.callback.value == StatusChange(orderId, OrdersByDate.Served, !isServed)
  {
    var dto := if !isServed then MarkAsServed(orderId) else UnmarkAsServed(orderId);
    Press(dto, if UpdateOrderStatus(response) then Some(StatusChange(orderId, OrdersByDate.Served, !isServed)) else None)
  }

  /** The list after the parent applies the callback, if there is one. */
  function Applied(os: seq<OrdersByDate.Order>, p: Press): seq<OrdersByDate.Order> {
    if p.callback.Some? then
      OrdersByDate.WithStatus(os, p.callback.value.orderId, p.callback.value.flag, p.callback.value.newStatus)
    else os
  }

  /**
   * An accepted press on a row that shows its paid flag flips that flag in the row, to
   * the value the server was sent, and leaves every other order as it was.
   */
  lemma PaidPressFlipsRow(os: seq<OrdersByDate.Order>, i: int, response: Outcome<int>)
    requires 0 <= i < |os| && UpdateOrderStatus(response)
    ensures var p := PaidPress(os[i].orderId, os[i].paid, response);
            var r := Applied(os, p);
            && |r| == |os|
            && r[i] == os[i].(paid := !os[i].paid)
            && p.sent.paid == Some(r[i].paid)
            && forall j | 0 <= j < |os| && os[j].orderId != os[i].orderId :: r[j] == os[j]
  {
    var p := PaidPress(os[i].orderId, os[i].paid, response);
    OrdersByDate.WithStatusSpec(os, os[i].orderId, OrdersByDate.Paid, !os[i].paid, i);
    forall j | 0 <= j < |os| && os[j].orderId != os[i].orderId
      ensures Applied(os, p)[j] == os[j]
    {
      OrdersByDate.WithStatusSpec(os, os[i].orderId, OrdersByDate.Paid, !os[i].paid, j);
    }
  }

  /** The same for the served flag. */
  lemma ServedPressFlipsRow(os: seq<OrdersByDate.Order>, i: int, response: Outcome<int>)
    requires 0 <= i < |os| && UpdateOrderStatus(response)
    ensures var p := ServedPress(os[i].orderId, os[i].served, response);
            var r := Applied(os, p);
            && |r| == |os|
            && r[i] == os[i].(served := !os[i].served)
            && p.sent.served == Some(r[i].served)
            && forall j | 0 <= j < |os| && os[j].orderId != os[i].orderId :: r[j] == os[j]
  {
    var p := ServedPress(os[i].orderId, os[i].served, response);
    OrdersByDate.WithStatusSpec(os, os[i].orderId, OrdersByDate.Served, !os[i].served, i);
    forall j | 0 <= j < |os| && os[j].orderId != os[i].orderId
      ensures Applied(os, p)[j] == os[j]
    {
      OrdersByDate.WithStatusSpec(os, os[i].orderId, OrdersByDate.Served, !os[i].served, j);
    }
  }

  /** A rejected press leaves the list as it was. */
  lemma RejectedPressChangesNothing(os: seq<OrdersByDate.Order>, orderId: int, isPaid: bool, response: Outcome<int>)
    requires !UpdateOrderStatus(response)
    ensures Applied(os, PaidPress(orderId, isPaid, response)) == os
    ensures Applied(os, ServedPress(orderId, isPaid, response)) == os
  {
  }
}
