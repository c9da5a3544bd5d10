/**
 * The unpaid-orders screen: pages of two orders searched by first and last name, a set
 * of expanded orders, and the page buttons. A page that comes back empty past the
 * first one sends the screen one page back.
 */
module UnpaidOrders {
  import opened Wrappers
  import opened Http

  datatype DishLine = DishLine(dishName: string, dishId: int, quantity: int)

  /** An order as the API sends it. */
  datatype UnpaidOrder = UnpaidOrder(firstName: string, lastName: string, profilePicture: Option<string>,
                                     orderId: int, totalAmount: real, paid: bool, orderDate: string,
                                     dishes: seq<DishLine>)

  const PageSize := 2

  /** The query of the orders request. */
  datatype Query = Query(pageNumber: int, pageSize: int, firstName: string, lastName: string)

  /** `toggleOrder`: the id goes in when absent and out when present. */
  function Toggled(expanded: set<int>, orderId: int): (r: set<int>)
    ensures orderId in r <==> orderId !in expanded
    ensures forall id | id != orderId :: id in r <==> id in expanded
  {
    if orderId in expanded then expanded - {orderId} else expanded + {orderId}
  }

  /** Toggling twice restores the set. */
  lemma ToggledTwice(expanded: set<int>, orderId: int)
    ensures Toggled(Toggled(expanded, orderId), orderId) == expanded
  {
  }

  /** The page before `p`, never below 1. */
  function PreviousPageOf(p: int): (q: int)
    ensures q >= 1
    ensures p > 1 ==> q == p - 1
    ensures p <= 1 ==> q == 1
  {
    if p - 1 > 1 then p - 1 else 1
  }

  /** The screen's state. */
  class UnpaidOrdersScreen {
    var orders: seq<UnpaidOrder>
    var pageNumber: int
    var hasNextPage: bool
    var expandedOrders: set<int>
    var firstName: string
    var lastName: string

    /** The page number stays at 1 or above. */
    predicate Valid()
      reads this
    {
      pageNumber >= 1
    }

    constructor()
      ensures Valid()
      ensures orders == [] && pageNumber == 1 && hasNextPage && expandedOrders == {} && firstName == "" && lastName == ""
    {
      orders, pageNumber, hasNextPage, expandedOrders := [], 1, true, {};
      firstName, lastName := "", "";
    }

    /** The request the fetch effect sends. */
    function CurrentQuery(): (q: Query)
      reads this
      ensures q.pageSize == 2
      ensures q.pageNumber == pageNumber && q.firstName == firstName && q.lastName == lastName
    {
      Query(pageNumber, PageSize, firstName, lastName)
    }

    /**
     * The fetch effect, given how the GET ended (`items` is `items.$values` of the body).
     * An empty page past the first steps one page back and keeps the orders; any other
     * page replaces them, with a next page expected exactly when the page was full. A
     * failure changes nothing.
     */
    method FetchOrders(response: Outcome<Option<seq<UnpaidOrder>>>)
      requires Valid()
      modifies this`orders, this`pageNumber, this`hasNextPage
      ensures Valid()
      ensures response.Failed? ==> orders == old(orders) && pageNumber == old(pageNumber) && hasNextPage == old(hasNextPage)
      ensures response.Done? ==>
                var fetched := response.value.GetOr([]);
                && (|fetched| == 0 && old(pageNumber) > 1 ==>
                      orders == old(orders) && pageNumber == old(pageNumber) - 1 && hasNextPage == old(hasNextPage))
                && (|fetched| > 0 || old(pageNumber) == 1 ==>
                      && orders == fetched && pageNumber == old(pageNumber) && hasNextPage == (|fetched| == PageSize)
                      && (NextShown() <==> |orders| == PageSize))
    {
      if response.Done? {
        var fetched := if response.value.Some? then response.value.value else [];
        if |fetched| == 0 && pageNumber > 1 {
          pageNumber := PreviousPageOf(pageNumber);
        } else {
          orders := fetched;
          hasNextPage := |fetched| == PageSize;
        }
      }
    }

    method ToggleOrder(orderId: int)
      modifies this`expandedOrders
      ensures expandedOrders == Toggled(old(expandedOrders), orderId)
    {
      var newSet := expandedOrders;
      if orderId in newSet {
        newSet := newSet - {orderId};
      } else {
        newSet := newSet + {orderId};
      }
      expandedOrders := newSet;
    }

    method SetFirstName(value: string)
      modifies this`firstName
      ensures firstName == value
    {
      firstName := value;
    }

    method SetLastName(value: string)
      modifies this`lastName
      ensures lastName == value
    {
      lastName := value;
    }

    /** The search button starts again at page 1. */
    method Search()
      modifies this`pageNumber
      ensures Valid() && pageNumber == 1
    {
      pageNumber := 1;
    }

    /** The previous-page button is shown past page 1. */
    predicate PreviousShown()
      reads this
    {
      pageNumber > 1
    }

    /** The next-page button is shown while a next page is expected. */
    predicate NextShown()
      reads this
    {
      hasNextPage
    }

    method PreviousPage()
      modifies this`pageNumber
      ensures Valid()
      ensures pageNumber == PreviousPageOf(old(pageNumber))
      ensures old(Valid()) ==> (old(PreviousShown()) <==> pageNumber != old(pageNumber))
    {
      pageNumber := if pageNumber - 1 > 1 then pageNumber - 1 else 1;
    }

    method NextPage()
      requires Valid()
      modifies this`pageNumber
      ensures Valid()
      ensures pageNumber == old(pageNumber) + 1
    {
      pageNumber := pageNumber + 1;
    }
  }
}
