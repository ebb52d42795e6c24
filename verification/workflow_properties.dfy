/** Properties of the creation workflow across its steps and together
    with the read operations. */
module WorkflowProperties {
  import opened Wrappers
  import opened Errors
  import opened Text
  import opened Calendar
  import opened ItemEntity
  import opened OrderEntity
  import opened OrderRepository
  import opened OrderService

  /** A blank or null customer code stops the call before any item is
      built: the error names customerCode, the ERP port is not called and
      the store is untouched. */
  lemma CustomerFailureAbortsFirst(
    store: Store, request: CreateSalesOrderRequest,
    numberClock: UtcDateTime, dateClock: UtcDateTime, erp: ErpPort)
    requires IsNullOrWhiteSpace(request.customerCode)
    ensures var w := CreateSalesOrder(store, request, numberClock, dateClock, erp);
      && w.result == Failure(ArgumentError(CustomerCodeMessage, "customerCode"))
      && w.erpSubmissions == []
      && w.store == store
  {
  }

  /** The first invalid requested line ends the call with that line's
      validation error; nothing is confirmed, submitted or stored. */
  lemma ItemFailureAborts(
    store: Store, request: CreateSalesOrderRequest,
    numberClock: UtcDateTime, dateClock: UtcDateTime, erp: ErpPort, k: int)
    requires !IsNullOrWhiteSpace(request.customerCode) && !IsNullOrWhiteSpace(request.customerName)
    requires IsFirstInvalid(request.items, k)
    ensures var w := CreateSalesOrder(store, request, numberClock, dateClock, erp);
      && w.result.Failure?
      && Some(w.result.error) == ValidationError(request.items[k].quantity, request.items[k].unitPrice)
      && IsArgumentKind(w.result.error)
      && w.erpSubmissions == []
      && w.store == store
  {
  }

  /** A request without items fails at the confirmation step with the
      InvalidOperation error; neither port is used. */
  lemma EmptyRequestFailsAtConfirm(
    store: Store, request: CreateSalesOrderRequest,
    numberClock: UtcDateTime, dateClock: UtcDateTime, erp: ErpPort)
    requires !IsNullOrWhiteSpace(request.customerCode) && !IsNullOrWhiteSpace(request.customerName)
    requires request.items == []
    ensures var w := CreateSalesOrder(store, request, numberClock, dateClock, erp);
      && w.result == Failure(InvalidOperation(ConfirmMessage))
      && w.erpSubmissions == []
      && w.store == store
  {
  }

  /** With the stub connector every valid request succeeds, and the
      response is the confirmed order itself: status "Confirmed" and a
      total equal to the sum of the totals its lines show. */
  lemma {:induction false} IdentityErpTotal(
    store: Store, request: CreateSalesOrderRequest,
    numberClock: UtcDateTime, dateClock: UtcDateTime)
    requires ValidRequest(request)
    ensures CreateSalesOrder(store, request, numberClock, dateClock, IdentityErp).result.Success?
    ensures var r := CreateSalesOrder(store, request, numberClock, dateClock, IdentityErp).result.value;
      && r.status == "Confirmed"
      && r.totalAmount == SumResponseTotals(r.items)
  {
    var order := BuildConfirmedOrder(request, numberClock, dateClock).value;
    var r := CreateSalesOrder(store, request, numberClock, dateClock, IdentityErp).result.value;
    assert r == MapToResponse(order);
    SumResponseTotalsOfItems(r.items, order.items);
  }

  /** With the stub connector the response lists one line per requested
      line, in request order, numbered 10, 20, 30, ..., and carries the
      request's customer fields and currency. */
  lemma IdentityErpItems(
    store: Store, request: CreateSalesOrderRequest,
    numberClock: UtcDateTime, dateClock: UtcDateTime)
    requires ValidRequest(request)
    ensures CreateSalesOrder(store, request, numberClock, dateClock, IdentityErp).result.Success?
    ensures var r := CreateSalesOrder(store, request, numberClock, dateClock, IdentityErp).result.value;
      && |r.items| == |request.items|
      && (forall i :: 0 <= i < |r.items| ==>
            && r.items[i].itemNumber == 10 * (i + 1)
            && ItemFromResponse(r.items[i]) == ExpectedItem(request.items[i], 10 * (i + 1)))
      && r.customerCode == request.customerCode.value
      && r.customerName == request.customerName.value
      && r.currency == request.currency
  {
  }

  /** After a successful call, looking the new number up finds the new
      order unless an earlier order already holds that number. */
  lemma GetAfterCreate(
    store: Store, request: CreateSalesOrderRequest,
    numberClock: UtcDateTime, dateClock: UtcDateTime, erp: ErpPort)
    ensures var w := CreateSalesOrder(store, request, numberClock, dateClock, erp);
      var number := if w.result.Success? then w.result.value.salesOrderNumber else "";
      w.result.Success? ==>
        GetSalesOrder(w.store, number) ==
          (if GetSalesOrder(store, number).Some? then GetSalesOrder(store, number) else Some(w.result.value))
  {
  }

  /** After a successful call the listing is the old listing followed by
      the new response. */
  lemma ListingGrowsByResponse(
    store: Store, request: CreateSalesOrderRequest,
    numberClock: UtcDateTime, dateClock: UtcDateTime, erp: ErpPort)
    ensures var w := CreateSalesOrder(store, request, numberClock, dateClock, erp);
      w.result.Success? ==> GetAllSalesOrders(w.store) == GetAllSalesOrders(store) + [w.result.value]
  {
  }

  /** After a successful call the listing holds one more copy of the new
      response than before, whatever numbers were already stored, and
      exactly one when that response was not listed yet. */
  lemma CreatedOrderListedOnce(
    store: Store, request: CreateSalesOrderRequest,
    numberClock: UtcDateTime, dateClock: UtcDateTime, erp: ErpPort)
    ensures var w := CreateSalesOrder(store, request, numberClock, dateClock, erp);
      w.result.Success? ==>
      && multiset(GetAllSalesOrders(w.store))[w.result.value] ==
           multiset(GetAllSalesOrders(store))[w.result.value] + 1
      && (w.result.value !in GetAllSalesOrders(store) ==>
            multiset(GetAllSalesOrders(w.store))[w.result.value] == 1)
  {
    ListingGrowsByResponse(store, request, numberClock, dateClock, erp);
  }

  /** A response is determined by the order read back from it. */
  lemma OrderFromResponseInjective(a: SalesOrderResponse, b: SalesOrderResponse)
    requires OrderFromResponse(a).Some? && OrderFromResponse(a) == OrderFromResponse(b)
    ensures a == b
  {
    var o := OrderFromResponse(a).value;
    StatusNameRoundTrip(o.status, a.status);
    StatusNameRoundTrip(o.status, b.status);
    assert |a.items| == |b.items| == |o.items|;
    forall i | 0 <= i < |a.items| ensures a.items[i] == b.items[i] {
      assert ItemFromResponse(a.items[i]) == o.items[i] == ItemFromResponse(b.items[i]);
    }
  }
}
