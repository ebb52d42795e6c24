/** The application use case: builds an order from a request, confirms
    it, submits it to the ERP port, stores what the port returns and maps
    it to the response shape; plus the two read operations. */
module OrderService {
  import opened Wrappers
  import opened Errors
  import opened Text
  import opened Calendar
  import opened ItemEntity
  import opened OrderEntity
  import opened OrderRepository

  /** Item numbers start here and step by this much, as ERP line numbers do. */
  const FirstItemNumber: int := 10
  const ItemNumberStep: int := 10

  /** One requested line, with the deserializer's defaults. */
  datatype SalesOrderItemDto = SalesOrderItemDto(
    materialCode: string := "",
    materialDescription: string := "",
    quantity: int := 0,
    unitPrice: real := 0.0,
    unit: string := DefaultUnit)

  /** The creation request. The customer fields may be null on the wire;
      omitted ones default to the empty string. */
  datatype CreateSalesOrderRequest = CreateSalesOrderRequest(
    customerCode: Option<string> := Some(""),
    customerName: Option<string> := Some(""),
    currency: string := DefaultCurrency,
    items: seq<SalesOrderItemDto> := [])

  datatype SalesOrderItemResponse = SalesOrderItemResponse(
    itemNumber: int,
    materialCode: string,
    materialDescription: string,
    quantity: int,
    unitPrice: real,
    totalPrice: real,
    unit: string)

  datatype SalesOrderResponse = SalesOrderResponse(
    salesOrderNumber: string,
    orderDate: UtcDateTime,
    customerCode: string,
    customerName: string,
    totalAmount: real,
    currency: string,
    status: string,
    items: seq<SalesOrderItemResponse>)

  /** The ERP port's submit operation: it either returns the order of
      record (possibly changed by the external system) or fails. */
  type ErpPort = SalesOrder -> Result<SalesOrder, Error>

  /** The stub connector: it accepts the order as it is. */
  function IdentityErp(order: SalesOrder): Result<SalesOrder, Error> {
    Success(order)
  }

  /** What one call of the creation workflow produces: its outcome, the
      store afterwards, and every order handed to the ERP port, in order. */
  datatype WorkflowOutcome = WorkflowOutcome(
    result: Result<SalesOrderResponse, Error>,
    store: Store,
    erpSubmissions: seq<SalesOrder>)

  // ---------------------------------------------------------------------
  // Mapping to the response shape

  function ItemToResponse(i: SalesOrderItem): SalesOrderItemResponse {
    SalesOrderItemResponse(i.itemNumber, i.materialCode, i.materialDescription,
                           i.quantity, i.unitPrice, i.totalPrice, i.unit)
  }

  /** Copies every field, renders the status by name and maps the items
      one to one, in order. */
  function MapToResponse(order: SalesOrder): (r: SalesOrderResponse)
    ensures r.salesOrderNumber == order.salesOrderNumber
    ensures r.orderDate == order.orderDate
    ensures r.customerCode == order.customerCode
    ensures r.customerName == order.customerName
    ensures r.totalAmount == order.totalAmount
    ensures r.currency == order.currency
    ensures ParseStatus(r.status) == Some(order.status)
    ensures |r.items| == |order.items|
    ensures forall i :: 0 <= i < |r.items| ==> ItemFromResponse(r.items[i]) == order.items[i]
    // nothing is lost: the order can be read back from the response
    ensures OrderFromResponse(r) == Some(order)
  {
    StatusNameRoundTrip(order.status, StatusName(order.status));
    var r := SalesOrderResponse(
      order.salesOrderNumber, order.orderDate, order.customerCode, order.customerName,
      order.totalAmount, order.currency, StatusName(order.status),
      seq(|order.items|, i requires 0 <= i < |order.items| => ItemToResponse(order.items[i])));
    assert seq(|r.items|, i requires 0 <= i < |r.items| => ItemFromResponse(r.items[i])) == order.items;
    r
  }

  function ItemFromResponse(r: SalesOrderItemResponse): SalesOrderItem {
    SalesOrderItem(r.itemNumber, r.materialCode, r.materialDescription,
                   r.quantity, r.unitPrice, r.totalPrice, r.unit)
  }

  /** Reads an order back from its response; None when the status string
      names no status. */
  function OrderFromResponse(r: SalesOrderResponse): Option<SalesOrder> {
    match ParseStatus(r.status)
    case None => None
    case Some(s) =>
      Some(SalesOrder(
        r.salesOrderNumber, r.orderDate, r.customerCode, r.customerName,
        r.totalAmount, r.currency, s,
        seq(|r.items|, i requires 0 <= i < |r.items| => ItemFromResponse(r.items[i]))))
  }

  /** Distinct orders map to distinct responses. */
  lemma MapToResponseInjective(a: SalesOrder, b: SalesOrder)
    ensures MapToResponse(a) == MapToResponse(b) <==> a == b
  {
  }

  /** The sum of the item totals a response lists. */
  function SumResponseTotals(items: seq<SalesOrderItemResponse>): real {
    if |items| == 0 then 0.0 else items[0].totalPrice + SumResponseTotals(items[1..])
  }

  lemma {:induction false} SumResponseTotalsOfItems(rs: seq<SalesOrderItemResponse>, items: seq<SalesOrderItem>)
    requires |rs| == |items|
    requires forall i :: 0 <= i < |rs| ==> ItemFromResponse(rs[i]) == items[i]
    ensures SumResponseTotals(rs) == SumTotals(items)
  {
    if |rs| > 0 {
      assert ItemFromResponse(rs[0]) == items[0];
      SumResponseTotalsOfItems(rs[1..], items[1..]);
    }
  }

  // ---------------------------------------------------------------------
  // Building the order

  predicate ValidDto(dto: SalesOrderItemDto) {
    dto.quantity > 0 && dto.unitPrice > 0.0
  }

  /** The item a valid requested line becomes under a given item number. */
  function ExpectedItem(dto: SalesOrderItemDto, itemNumber: int): SalesOrderItem {
    SalesOrderItem(itemNumber, dto.materialCode, dto.materialDescription,
                   dto.quantity, dto.unitPrice, dto.quantity as real * dto.unitPrice, dto.unit)
  }

  /** k is the first requested line that fails item validation. */
  predicate IsFirstInvalid(dtos: seq<SalesOrderItemDto>, k: int) {
    && 0 <= k < |dtos|
    && !ValidDto(dtos[k])
    && forall j :: 0 <= j < k ==> ValidDto(dtos[j])
  }

  /** The foreach loop: creates each requested line with the running item
      number and appends it, stopping at the first line that fails. */
  function AddRequestItems(order: SalesOrder, dtos: seq<SalesOrderItemDto>, itemNumber: int): (r: Result<SalesOrder, Error>)
    decreases |dtos|
    ensures r.Success? <==> forall i :: 0 <= i < |dtos| ==> ValidDto(dtos[i])
    ensures r.Failure? ==> exists k ::
      IsFirstInvalid(dtos, k) && Some(r.error) == ValidationError(dtos[k].quantity, dtos[k].unitPrice)
    ensures r.Success? ==>
      && |r.value.items| == |order.items| + |dtos|
      && r.value.items[..|order.items|] == order.items
      && (forall i :: 0 <= i < |dtos| ==>
            r.value.items[|order.items| + i] == ExpectedItem(dtos[i], itemNumber + ItemNumberStep * i))
      && SameIdentity(order, r.value)
      && r.value.status == order.status
    ensures r.Success? && |dtos| > 0 ==> TotalConsistent(r.value)
    ensures r.Success? && Invariant(order) ==> Invariant(r.value)
  {
    if |dtos| == 0 then Success(order)
    else
      var dto := dtos[0];
      var item := ItemEntity.Create(itemNumber, dto.materialCode, dto.materialDescription,
                                    dto.quantity, dto.unitPrice, dto.unit);
      if item.Failure? then
        assert IsFirstInvalid(dtos, 0);
        Failure(item.error)
      else
        var added := AddItem(order, Some(item.value));
        var rest := AddRequestItems(added.value, dtos[1..], itemNumber + ItemNumberStep);
        if rest.Failure? then
          var k :| IsFirstInvalid(dtos[1..], k) &&
                   Some(rest.error) == ValidationError(dtos[1..][k].quantity, dtos[1..][k].unitPrice);
          assert IsFirstInvalid(dtos, k + 1);
          rest
        else
          AddRequestItemsSuccess(order, dtos, itemNumber, item.value, added.value, rest.value);
          rest
  }

  /** The success step of AddRequestItems: the first line's item followed
      by what the rest of the loop appended. */
  lemma AddRequestItemsSuccess(
    order: SalesOrder, dtos: seq<SalesOrderItemDto>, itemNumber: int,
    first: SalesOrderItem, added: SalesOrder, rest: SalesOrder)
    requires |dtos| > 0
    requires first == ExpectedItem(dtos[0], itemNumber)
    requires added.items == order.items + [first]
    requires |rest.items| == |added.items| + |dtos| - 1
    requires rest.items[..|added.items|] == added.items
    requires forall i :: 0 <= i < |dtos| - 1 ==>
      rest.items[|added.items| + i] == ExpectedItem(dtos[1..][i], itemNumber + ItemNumberStep + ItemNumberStep * i)
    ensures rest.items[..|order.items|] == order.items
    ensures forall i :: 0 <= i < |dtos| ==>
      rest.items[|order.items| + i] == ExpectedItem(dtos[i], itemNumber + ItemNumberStep * i)
  {
    assert rest.items[..|order.items|] == rest.items[..|added.items|][..|order.items|];
    forall i | 0 <= i < |dtos|
      ensures rest.items[|order.items| + i] == ExpectedItem(dtos[i], itemNumber + ItemNumberStep * i)
    {
      if i == 0 {
        assert rest.items[|order.items|] == rest.items[..|added.items|][|order.items|];
      } else {
        assert rest.items[|added.items| + (i - 1)] ==
          ExpectedItem(dtos[1..][i - 1], itemNumber + ItemNumberStep + ItemNumberStep * (i - 1));
      }
    }
  }

  /** A request that passes every domain check of the use case. */
  predicate ValidRequest(request: CreateSalesOrderRequest) {
    && !IsNullOrWhiteSpace(request.customerCode)
    && !IsNullOrWhiteSpace(request.customerName)
    && |request.items| > 0
    && forall i :: 0 <= i < |request.items| ==> ValidDto(request.items[i])
  }

  /** The domain half of the use case: the order as it stands when it is
      handed to the ERP port, or the first failure. */
  function BuildConfirmedOrder(
    request: CreateSalesOrderRequest,
    numberClock: UtcDateTime,
    dateClock: UtcDateTime): (r: Result<SalesOrder, Error>)
    ensures r.Success? <==> ValidRequest(request)
    // failures, in the order the steps run
    ensures IsNullOrWhiteSpace(request.customerCode) ==>
      r == Failure(ArgumentError(CustomerCodeMessage, "customerCode"))
    ensures !IsNullOrWhiteSpace(request.customerCode) && IsNullOrWhiteSpace(request.customerName) ==>
      r == Failure(ArgumentError(CustomerNameMessage, "customerName"))
    ensures !IsNullOrWhiteSpace(request.customerCode) && !IsNullOrWhiteSpace(request.customerName) ==>
      forall k :: IsFirstInvalid(request.items, k) ==>
        Some(r.error) == ValidationError(request.items[k].quantity, request.items[k].unitPrice)
    ensures (!IsNullOrWhiteSpace(request.customerCode) && !IsNullOrWhiteSpace(request.customerName)
      && |request.items| == 0) ==> r == Failure(InvalidOperation(ConfirmMessage))
    // the built order
    ensures r.Success? ==>
      && r.value.status == Confirmed
      && Invariant(r.value)
      && |r.value.items| == |request.items|
      && (forall i :: 0 <= i < |request.items| ==>
            r.value.items[i] == ExpectedItem(request.items[i], FirstItemNumber + ItemNumberStep * i))
      && r.value.customerCode == request.customerCode.value
      && r.value.customerName == request.customerName.value
      && r.value.currency == request.currency
      && r.value.orderDate == dateClock
      && r.value.salesOrderNumber == GenerateOrderNumber(numberClock)
      && DecodeOrderNumber(r.value.salesOrderNumber) == Some(numberClock.DatePart())
  {
    var order :- OrderEntity.Create(numberClock, dateClock, request.customerCode,
                                    request.customerName, request.currency);
    var filled :- AddRequestItems(order, request.items, FirstItemNumber);
    assert forall k :: IsFirstInvalid(request.items, k) ==> false;
    assert filled.items[..0] == [] && |filled.items| == |request.items|;
    Confirm(filled)
  }

  // ---------------------------------------------------------------------
  // The use cases

  /** CreateSalesOrderAsync: build and confirm, submit to the ERP port,
      store the port's answer, map it. The first failure ends the call and
      is returned as it is; nothing is stored unless every step succeeded. */
  function CreateSalesOrder(
    store: Store,
    request: CreateSalesOrderRequest,
    numberClock: UtcDateTime,
    dateClock: UtcDateTime,
    erp: ErpPort): (w: WorkflowOutcome)
    ensures w.result.Success? <==>
      && BuildConfirmedOrder(request, numberClock, dateClock).Success?
      && erp(BuildConfirmedOrder(request, numberClock, dateClock).value).Success?
    // no partial commit
    ensures w.result.Failure? ==> w.store == store
    // domain failures happen before the ERP port is called
    ensures BuildConfirmedOrder(request, numberClock, dateClock).Failure? ==>
      && w.result == Failure(BuildConfirmedOrder(request, numberClock, dateClock).error)
      && w.erpSubmissions == []
    // otherwise the confirmed order is submitted exactly once
    ensures BuildConfirmedOrder(request, numberClock, dateClock).Success? ==>
      && w.erpSubmissions == [BuildConfirmedOrder(request, numberClock, dateClock).value]
      && w.erpSubmissions[0].status == Confirmed
    // an ERP failure propagates unchanged
    ensures |w.erpSubmissions| == 1 && erp(w.erpSubmissions[0]).Failure? ==>
      w.result == Failure(erp(w.erpSubmissions[0]).error)
    // on success the ERP port's answer is what is stored and returned
    ensures w.result.Success? ==>
      && |w.erpSubmissions| == 1
      && erp(w.erpSubmissions[0]).Success?
      && w.store == store + [erp(w.erpSubmissions[0]).value]
      && w.result.value == MapToResponse(erp(w.erpSubmissions[0]).value)
  {
    match BuildConfirmedOrder(request, numberClock, dateClock)
    case Failure(e) => WorkflowOutcome(Failure(e), store, [])
    case Success(confirmed) =>
      match erp(confirmed)
      case Failure(e) => WorkflowOutcome(Failure(e), store, [confirmed])
      case Success(sapOrder) =>
        var (stored, _) := OrderRepository.CreateOrder(store, sapOrder);
        WorkflowOutcome(Success(MapToResponse(sapOrder)), stored, [confirmed])
  }

  /** GetSalesOrderAsync: the earliest stored order with that number,
      mapped; None exactly when no stored order has it. */
  function GetSalesOrder(store: Store, orderNumber: string): (r: Option<SalesOrderResponse>)
    ensures r.None? <==> forall i :: 0 <= i < |store| ==> store[i].salesOrderNumber != orderNumber
    ensures r.Some? ==> exists i :: IsFirstMatch(store, orderNumber, i) && r.value == MapToResponse(store[i])
    ensures r.Some? ==> r.value.salesOrderNumber == orderNumber
  {
    match GetByOrderNumber(store, orderNumber)
    case None => None
    case Some(order) => Some(MapToResponse(order))
  }

  /** GetAllSalesOrdersAsync: every stored order, mapped, in store order. */
  function GetAllSalesOrders(store: Store): (r: seq<SalesOrderResponse>)
    ensures |r| == |store|
    ensures forall i :: 0 <= i < |r| ==> OrderFromResponse(r[i]) == Some(store[i])
  {
    var all := OrderRepository.GetAll(store);
    seq(|all|, i requires 0 <= i < |all| => MapToResponse(all[i]))
  }
}
