/** Concrete requests and what the workflow makes of them with the stub
    connector. */
module Scenarios {
  import opened Wrappers
  import opened Text
  import opened Calendar
  import opened ItemEntity
  import opened OrderEntity
  import opened OrderRepository
  import opened OrderService
  import opened WorkflowProperties

  const Morning: UtcDateTime := DateTime(2024, 3, 15, 9, 30, 5, 0)
  const Evening: UtcDateTime := DateTime(2024, 3, 15, 21, 2, 59, 1234)

  const Acme: CreateSalesOrderRequest :=
    CreateSalesOrderRequest(Some("C001"), Some("Acme"), "BRL",
      [SalesOrderItemDto("M1", "Widget", 2, 10.50, "UN")])

  const AcmeTwoLines: CreateSalesOrderRequest :=
    CreateSalesOrderRequest(Some("C001"), Some("Acme"), "BRL",
      [SalesOrderItemDto("M1", "Widget", 2, 10.50, "UN"),
       SalesOrderItemDto("M2", "Gadget", 3, 1.25, "KG")])

  const Beta: CreateSalesOrderRequest :=
    CreateSalesOrderRequest(Some("C002"), Some("Beta"), "USD",
      [SalesOrderItemDto("M9", "Bolt", 1, 0.10)])

  /** Any reading on 15 March 2024 numbers the order 4020240315. */
  lemma MarchFifteenthNumber(now: UtcDateTime)
    requires now.DatePart() == Date(2024, 3, 15)
    ensures GenerateOrderNumber(now) == "4020240315"
  {
  }

  /** One line of two units at 10.50: item 10, line total 21.00, order
      total 21.00, status "Confirmed", stored once. */
  lemma SingleLineOrder(store: Store)
    ensures var w := CreateSalesOrder(store, Acme, Morning, Morning, IdentityErp);
      && w.result.Success?
      && w.result.value.status == "Confirmed"
      && |w.result.value.items| == 1
      && w.result.value.items[0].itemNumber == 10
      && w.result.value.items[0].totalPrice == 21.00
      && w.result.value.totalAmount == 21.00
      && w.result.value.salesOrderNumber == "4020240315"
      && |w.store| == |store| + 1
  {
    assert !IsWhiteSpace(Acme.customerCode.value[0]);
    assert !IsWhiteSpace(Acme.customerName.value[0]);
    assert ValidDto(Acme.items[0]);
    var order := BuildConfirmedOrder(Acme, Morning, Morning);
    assert order.Success?;
    var w := CreateSalesOrder(store, Acme, Morning, Morning, IdentityErp);
    assert w.result.value == MapToResponse(order.value);
    IdentityErpTotal(store, Acme, Morning, Morning);
    IdentityErpItems(store, Acme, Morning, Morning);
    var r := w.result.value;
    assert ItemFromResponse(r.items[0]) == ExpectedItem(Acme.items[0], 10);
    assert r.items[1..] == [];
    MarchFifteenthNumber(Morning);
  }

  /** Two lines are numbered 10 and 20 and the order total is the sum of
      the two line totals. */
  lemma TwoLineOrder(store: Store)
    ensures var w := CreateSalesOrder(store, AcmeTwoLines, Morning, Morning, IdentityErp);
      && w.result.Success?
      && |w.result.value.items| == 2
      && w.result.value.items[0].itemNumber == 10
      && w.result.value.items[1].itemNumber == 20
      && w.result.value.items[0].totalPrice == 21.00
      && w.result.value.items[1].totalPrice == 3.75
      && w.result.value.totalAmount ==
           w.result.value.items[0].totalPrice + w.result.value.items[1].totalPrice
  {
    assert !IsWhiteSpace(AcmeTwoLines.customerCode.value[0]);
    assert !IsWhiteSpace(AcmeTwoLines.customerName.value[0]);
    assert ValidDto(AcmeTwoLines.items[0]) && ValidDto(AcmeTwoLines.items[1]);
    var order := BuildConfirmedOrder(AcmeTwoLines, Morning, Morning);
    assert order.Success?;
    var w := CreateSalesOrder(store, AcmeTwoLines, Morning, Morning, IdentityErp);
    assert w.result.value == MapToResponse(order.value);
    IdentityErpTotal(store, AcmeTwoLines, Morning, Morning);
    IdentityErpItems(store, AcmeTwoLines, Morning, Morning);
    var items := w.result.value.items;
    assert ItemFromResponse(items[0]) == ExpectedItem(AcmeTwoLines.items[0], 10);
    assert ItemFromResponse(items[1]) == ExpectedItem(AcmeTwoLines.items[1], 20);
    assert items[1..][1..] == [];
  }

  /** A number nobody stored is absent, not an error. */
  lemma UnknownNumberIsAbsent()
    ensures GetSalesOrder([], "4099999999") == None
  {
  }

  /** With the stub connector a request that builds is stored and
      answered as built. */
  lemma StubAccepts(store: Store, request: CreateSalesOrderRequest, now: UtcDateTime)
    requires ValidRequest(request)
    ensures var built := BuildConfirmedOrder(request, now, now).value;
      var w := CreateSalesOrder(store, request, now, now, IdentityErp);
      && w.result == Success(MapToResponse(built))
      && w.store == store + [built]
      && built.salesOrderNumber == GenerateOrderNumber(now)
  {
  }

  /** Two orders placed on the same UTC day, at any hours, get the same
      number; lookup by that number keeps finding the first. */
  lemma SameDayOrdersShareNumber(
    first: CreateSalesOrderRequest, second: CreateSalesOrderRequest,
    early: UtcDateTime, late: UtcDateTime)
    requires ValidRequest(first) && ValidRequest(second)
    requires early.DatePart() == late.DatePart()
    ensures var w1 := CreateSalesOrder([], first, early, early, IdentityErp);
      var w2 := CreateSalesOrder(w1.store, second, late, late, IdentityErp);
      && w1.result.Success? && w2.result.Success?
      && w2.result.value.salesOrderNumber == w1.result.value.salesOrderNumber
      && |w2.store| == 2
      && GetSalesOrder(w2.store, w1.result.value.salesOrderNumber) == Some(w1.result.value)
  {
    var b1 := BuildConfirmedOrder(first, early, early).value;
    var b2 := BuildConfirmedOrder(second, late, late).value;
    StubAccepts([], first, early);
    var w1 := CreateSalesOrder([], first, early, early, IdentityErp);
    StubAccepts(w1.store, second, late);
    OrderNumbersCollideIffSameDay(early, late);
    DuplicateNumberKeepsFirst([], b1, b2);
  }

  /** The sample requests pass every domain check. */
  lemma Builds(request: CreateSalesOrderRequest)
    requires request in {Acme, AcmeTwoLines, Beta}
    ensures ValidRequest(request)
  {
    assert !IsWhiteSpace(request.customerCode.value[0]);
    assert !IsWhiteSpace(request.customerName.value[0]);
    assert forall i :: 0 <= i < |request.items| ==> ValidDto(request.items[i]);
  }

  /** The morning Acme order and the evening Beta order collide. */
  lemma AcmeAndBetaCollide()
    ensures var w1 := CreateSalesOrder([], Acme, Morning, Morning, IdentityErp);
      var w2 := CreateSalesOrder(w1.store, Beta, Evening, Evening, IdentityErp);
      && w1.result.Success? && w2.result.Success?
      && w2.result.value.salesOrderNumber == w1.result.value.salesOrderNumber
  {
    Builds(Acme);
    Builds(Beta);
    SameDayOrdersShareNumber(Acme, Beta, Morning, Evening);
  }
}
