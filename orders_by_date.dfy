/**
 * The orders-of-the-day screen: the status tabs and the query they send, keeping only
 * today's orders from a page, the local status change signalled by the buttons, the
 * expanded rows, and the page buttons.
 */
module OrdersByDate {
  import opened Wrappers
  import opened Seqs
  import opened Http

  /** A dish line of an order. */
  datatype DishLine = DishLine(dishName: string, quantity: int)

  /** An order as the API sends it; `dishes` is `None` when the `dishes` object or its `$values` is missing. */
  datatype RawOrder = RawOrder(firstName: string, lastName: string, profilePicture: Option<string>,
                               orderRemark: Option<string>, totalAmount: real, paid: bool, served: bool,
                               orderDate: string, orderId: int, dishes: Option<seq<DishLine>>)

  /** An order row of the screen. */
  datatype Order = Order(firstName: string, lastName: string, profilePicture: Option<string>,
                         orderRemark: Option<string>, orderId: int, totalAmount: real, paid: bool, served: bool,
                         orderDate: string, dishes: seq<DishLine>)

  const PageSize := 10

  /** The query of the orders request; `None` is `null`, no constraint. */
  datatype FilterParams = FilterParams(pageNumber: int, pageSize: int, isPaid: Option<bool>, isServed: Option<bool>)

  /** An order the server lets through a query's two flags. */
  predicate Admits(p: FilterParams, o: Order) {
    (p.isPaid.None? || o.paid == p.isPaid.value) && (p.isServed.None? || o.served == p.isServed.value)
  }

  /** The filter of each tab: 0 to do, 1 not served, 2 not paid, 3 done, any other tab everything. */
  function TabFilter(tab: int, pageNumber: int): FilterParams {
    if tab == 0 then FilterParams(pageNumber, PageSize, Some(false), Some(false))
    else if tab == 1 then FilterParams(pageNumber, PageSize, None, Some(false))
    else if tab == 2 then FilterParams(pageNumber, PageSize, Some(false), None)
    else if tab == 3 then FilterParams(pageNumber, PageSize, Some(true), Some(true))
    else FilterParams(pageNumber, PageSize, None, None)
  }

  /** What each tab shows, order by order. */
  lemma TabMeaning(tab: int, pageNumber: int, o: Order)
    ensures var p := TabFilter(tab, pageNumber);
            && p.pageNumber == pageNumber && p.pageSize == 10
            && (tab == 0 ==> (Admits(p, o) <==> !o.paid && !o.served))
            && (tab == 1 ==> (Admits(p, o) <==> !o.served))
            && (tab == 2 ==> (Admits(p, o) <==> !o.paid))
            && (tab == 3 ==> (Admits(p, o) <==> o.paid && o.served))
            && (tab !in {0, 1, 2, 3} ==> Admits(p, o))
  {
  }

  /** `buildFilterParams`: start from no constraint with the page, then set the flags of the tab. */
  method BuildFilterParams(tab: int, pageNumber: int) returns (params: FilterParams)
    ensures params == TabFilter(tab, pageNumber)
  {
    params := FilterParams(pageNumber, PageSize, None, None);
    if tab == 0 {
      params := params.(isPaid := Some(false));
      params := params.(isServed := Some(false));
    } else if tab == 1 {
      params := params.(isServed := Some(false));
    } else if tab == 2 {
      params := params.(isPaid := Some(false));
    } else if tab == 3 {
      params := params.(isPaid := Some(true));
      params := params.(isServed := Some(true));
    }
  }

  /** `s.split("T")[0]`: what comes before the first `T`, or all of `s`. */
  function DatePart(s: string): (r: string)
    ensures |r| <= |s| && r == s[..|r|]
    ensures forall i | 0 <= i < |r| :: r[i] != 'T'
    ensures |r| < |s| ==> s[|r|] == 'T'
    decreases |s|
  {
    if s == [] || s[0] == 'T' then [] else [s[0]] + DatePart(s[1..])
  }

  /** An order's row: its dishes default to no dishes, every other field is kept. */
  function Clean(o: RawOrder): Order {
    Order(o.firstName, o.lastName, o.profilePicture, o.orderRemark, o.orderId, o.totalAmount, o.paid, o.served,
          o.orderDate, if o.dishes.Some? then o.dishes.value else [])
  }

  function CleanAll(os: seq<RawOrder>): (r: seq<Order>)
    ensures |r| == |os|
    ensures forall i | 0 <= i < |os| :: r[i] == Clean(os[i])
  {
    seq(|os|, i requires 0 <= i < |os| => Clean(os[i]))
  }

  /** The order was placed on the day whose date part is `today`. */
  predicate OnDay(o: Order, today: string) { DatePart(o.orderDate) == today }

  /** The kept orders of a page: the cleaned orders of `today`, in the page's order. */
  function TodayOrders(items: Option<seq<RawOrder>>, today: string): seq<Order> {
    Filter(CleanAll(if items.Some? then items.value else []), (o: Order) => OnDay(o, today))
  }

  /** An order is kept exactly when it is the cleaned form of an order of the page dated today. */
  lemma TodayOrdersSpec(items: Option<seq<RawOrder>>, today: string, o: Order)
    ensures o in TodayOrders(items, today) <==>
              items.Some? && (exists i | 0 <= i < |items.value| :: Clean(items.value[i]) == o) && OnDay(o, today)
    ensures |TodayOrders(items, today)| <= if items.Some? then |items.value| else 0
  {
    var cleaned := CleanAll(if items.Some? then items.value else []);
    FilterMembership(cleaned, (x: Order) => OnDay(x, today), o);
    if o in cleaned {
      var k :| 0 <= k < |cleaned| && cleaned[k] == o;
      assert Clean(items.value[k]) == o;
    }
  }

  /** An ISO timestamp of `today` is kept whatever its time part. */
  lemma TimestampOfToday(today: string, time: string)
    requires forall i | 0 <= i < |today| :: today[i] != 'T'
    ensures DatePart(today + "T" + time) == today
  {
    var s := today + "T" + time;
    assert s[|today|] == 'T';
    assert today == s[..|today|];
  }

  /** The status flags the buttons change. */
  datatype StatusFlag = Paid | Served

  /** The row update of `handleStatusChange`. */
  function SetStatus(orderId: int, flag: StatusFlag, value: bool): Order -> Order {
    (o: Order) =>
      if o.orderId != orderId then o
      else match flag
        case Paid => o.(paid := value)
        case Served => o.(served := value)
  }

  /** `handleStatusChange` on the list. */
  function WithStatus(os: seq<Order>, orderId: int, flag: StatusFlag, value: bool): seq<Order> {
    Map(os, SetStatus(orderId, flag, value))
  }

  /** Only the rows with that id change, and only in the named flag. */
  lemma WithStatusSpec(os: seq<Order>, orderId: int, flag: StatusFlag, value: bool, i: int)
    requires 0 <= i < |os|
    ensures var r := WithStatus(os, orderId, flag, value);
            && |r| == |os|
            && (os[i].orderId != orderId ==> r[i] == os[i])
            && (os[i].orderId == orderId && flag == Paid ==> r[i] == os[i].(paid := value))
            && (os[i].orderId == orderId && flag == Served ==> r[i] == os[i].(served := value))
  {
  }

  /** Setting a flag to the value it already has in every row with that id changes nothing. */
  lemma WithStatusSame(os: seq<Order>, orderId: int, flag: StatusFlag, value: bool)
    requires forall i | 0 <= i < |os| && os[i].orderId == orderId ::
               (if flag == Paid then os[i].paid else os[i].served) == value
    ensures WithStatus(os, orderId, flag, value) == os
  {
    var r := WithStatus(os, orderId, flag, value);
    forall i | 0 <= i < |os|
      ensures r[i] == os[i]
    {
      WithStatusSpec(os, orderId, flag, value, i);
    }
  }

  /** `expandedOrders[id]` read as a boolean: a missing entry is false. */
  function Expanded(m: map<int, bool>, orderId: int): bool { orderId in m && m[orderId] }

  /** `toggleOrderExpand`. */
  function ToggledExpand(m: map<int, bool>, orderId: int): (r: map<int, bool>)
    ensures Expanded(r, orderId) == !Expanded(m, orderId)
    ensures orderId in r
    ensures forall id | id != orderId :: (id in r <==> id in m) && (id in r ==> r[id] == m[id])
  {
    m[orderId := !Expanded(m, orderId)]
  }

  /** Toggling twice restores every row's expanded state. */
  lemma ToggleExpandTwice(m: map<int, bool>, orderId: int, id: int)
    ensures Expanded(ToggledExpand(ToggledExpand(m, orderId), orderId), id) == Expanded(m, id)
  {
  }

  /** The screen's state. */
  class OrdersByDateScreen {
    var filteredOrders: seq<Order>
    var loading: bool
    var tabValue: int
    var pageNumber: int
    var expandedOrders: map<int, bool>
    var hasMoreOrders: bool

    constructor()
      ensures filteredOrders == [] && !loading && tabValue == 0 && pageNumber == 1
      ensures expandedOrders == map[] && hasMoreOrders
    {
      filteredOrders, loading, tabValue, pageNumber := [], false, 0, 1;
      expandedOrders, hasMoreOrders := map[], true;
    }

    /**
     * `fetchOrders`, given how the GET ended (`items` is `items.$values` of the body)
     * and the current ISO timestamp. Only today's orders are kept, and there may be
     * more exactly when a full page was kept. A failure empties the list.
     */
    method FetchOrders(response: Outcome<Option<seq<RawOrder>>>, nowIso: string)
      modifies this`loading, this`filteredOrders, this`hasMoreOrders
      ensures !loading
      ensures response.Done? ==>
                && filteredOrders == TodayOrders(response.value, DatePart(nowIso))
                && hasMoreOrders == (|filteredOrders| == PageSize)
                && (NextDisabled() <==> |filteredOrders| != PageSize)
      ensures response.Failed? ==> filteredOrders == [] && hasMoreOrders == old(hasMoreOrders)
    {
      loading := true;
      if response.Done? {
        var todayOrders := TodayOrders(response.value, DatePart(nowIso));
        filteredOrders := todayOrders;
        hasMoreOrders := |todayOrders| == PageSize;
      } else {
        filteredOrders := [];
      }
      loading := false;
    }

    /** `handleTabChange`: a new tab starts again at page 1. */
    method HandleTabChange(newValue: int)
      modifies this`tabValue, this`pageNumber
      ensures tabValue == newValue && pageNumber == 1
    {
      tabValue := newValue;
      pageNumber := 1;
    }

    /** `handleStatusChange`, called by the buttons once the server has accepted the change. */
    method HandleStatusChange(orderId: int, flag: StatusFlag, newStatus: bool)
      modifies this`filteredOrders
      ensures filteredOrders == WithStatus(old(filteredOrders), orderId, flag, newStatus)
    {
      filteredOrders := WithStatus(filteredOrders, orderId, flag, newStatus);
    }

    method ToggleOrderExpand(orderId: int)
      modifies this`expandedOrders
      ensures expandedOrders == ToggledExpand(old(expandedOrders), orderId)
    {
      expandedOrders := expandedOrders[orderId := !Expanded(expandedOrders, orderId)];
    }

    /** The previous-page button is disabled on page 1. */
    predicate PreviousDisabled()
      reads this
    {
      pageNumber == 1
    }

    /** The next-page button is disabled when the last page kept fewer than ten orders. */
    predicate NextDisabled()
      reads this
    {
      !hasMoreOrders
    }

    /** The previous-page button: one page back, never below 1. */
    method PreviousPage()
      modifies this`pageNumber
      ensures pageNumber == if old(pageNumber) - 1 > 1 then old(pageNumber) - 1 else 1
      ensures pageNumber >= 1
      ensures old(PreviousDisabled()) <==> pageNumber == old(pageNumber)
    {
      pageNumber := if pageNumber - 1 > 1 then pageNumber - 1 else 1;
    }

    /** The next-page button. */
    method NextPage()
      modifies this`pageNumber
      ensures pageNumber == old(pageNumber) + 1
    {
      pageNumber := pageNumber + 1;
    }
  }
}
