/**
 * The order status service: one PATCH that sets the paid flag, the served flag, or both,
 * and the four one-flag requests built on it.
 */
module OrderStatusService {
  import opened Wrappers
  import opened Http

  /**
   * The request, which is also the PATCH body: the service sends it unchanged. A flag
   * left out is left as the server has it.
   */
  datatype UpdateOrderStatusDto = UpdateOrderStatusDto(orderId: int, paid: Option<bool>, served: Option<bool>)

  /**
   * `updateOrderStatus`, given how the PATCH ended: true exactly when the server
   * answered with status 200; any failure is false.
   */
  function UpdateOrderStatus(response: Outcome<int>): (ok: bool)
    ensures ok <==> response.Done? && response.value == 200
  {
    match response
    case Done(status) => status == 200
    case Failed(_) => false
  }

  function MarkAsPaid(orderId: int): UpdateOrderStatusDto {
    UpdateOrderStatusDto(orderId, Some(true), None)
  }

  function MarkAsServed(orderId: int): UpdateOrderStatusDto {
    UpdateOrderStatusDto(orderId, None, Some(true))
  }

  function UnmarkAsPaid(orderId: int): UpdateOrderStatusDto {
    UpdateOrderStatusDto(orderId, Some(false), None)
  }

  function UnmarkAsServed(orderId: int): UpdateOrderStatusDto {
    UpdateOrderStatusDto(orderId, None, Some(false))
  }

  /** Sets one flag when exactly one of the two is present, and it holds `value`. */
  predicate OnlyPaid(dto: UpdateOrderStatusDto, value: bool) {
    dto.paid == Some(value) && dto.served.None?
  }

  predicate OnlyServed(dto: UpdateOrderStatusDto, value: bool) {
    dto.served == Some(value) && dto.paid.None?
  }

  /** Each of the four requests names its order and sets exactly one flag. */
  lemma OneFlagEach(orderId: int)
    ensures MarkAsPaid(orderId).orderId == orderId && OnlyPaid(MarkAsPaid(orderId), true)
    ensures UnmarkAsPaid(orderId).orderId == orderId && OnlyPaid(UnmarkAsPaid(orderId), false)
    ensures MarkAsServed(orderId).orderId == orderId && OnlyServed(MarkAsServed(orderId), true)
    ensures UnmarkAsServed(orderId).orderId == orderId && OnlyServed(UnmarkAsServed(orderId), false)
  {
  }
}
