/** The sales-order aggregate: header, owned items, derived total and
    lifecycle status. Every change goes through Create, AddItem or Confirm. */
module OrderEntity {
  import opened Wrappers
  import opened Errors
  import opened Text
  import opened Calendar
  import opened ItemEntity

  const DefaultCurrency: string := "BRL"

  /** The number range the generated order numbers start with. */
  const OrderNumberPrefix: string := "40"

  const OrderNumberLength: nat := 10

  const CustomerCodeMessage: string := "Customer code is required"
  const CustomerNameMessage: string := "Customer name is required"
  const ConfirmMessage: string := "Cannot confirm order without items"

  datatype SalesOrderStatus = Created | Confirmed | Processing | Delivered | Cancelled

  datatype SalesOrder = SalesOrder(
    salesOrderNumber: string,
    orderDate: UtcDateTime,
    customerCode: string,
    customerName: string,
    totalAmount: real,
    currency: string,
    status: SalesOrderStatus,
    items: seq<SalesOrderItem>)

  /** Items.Sum(i => i.TotalPrice), added up front to back. */
  function SumTotals(items: seq<SalesOrderItem>): real {
    if |items| == 0 then 0.0 else items[0].totalPrice + SumTotals(items[1..])
  }

  /** The total the aggregate promises to keep: the sum of its items'. */
  predicate TotalConsistent(order: SalesOrder) {
    order.totalAmount == SumTotals(order.items)
  }

  /** The aggregate's invariant: a consistent total over valid items. */
  predicate Invariant(order: SalesOrder) {
    && TotalConsistent(order)
    && forall i :: 0 <= i < |order.items| ==> Valid(order.items[i])
  }

  /** The two orders agree on everything but items, total and status. */
  predicate SameIdentity(a: SalesOrder, b: SalesOrder) {
    && a.salesOrderNumber == b.salesOrderNumber
    && a.orderDate == b.orderDate
    && a.customerCode == b.customerCode
    && a.customerName == b.customerName
    && a.currency == b.currency
  }

  /** Enum.ToString of a status: its declared name. */
  function StatusName(s: SalesOrderStatus): string {
    match s
    case Created => "Created"
    case Confirmed => "Confirmed"
    case Processing => "Processing"
    case Delivered => "Delivered"
    case Cancelled => "Cancelled"
  }

  /** The status a name denotes, if any (the inverse of StatusName). */
  function ParseStatus(name: string): Option<SalesOrderStatus> {
    if name == "Created" then Some(Created)
    else if name == "Confirmed" then Some(Confirmed)
    else if name == "Processing" then Some(Processing)
    else if name == "Delivered" then Some(Delivered)
    else if name == "Cancelled" then Some(Cancelled)
    else None
  }

  /** Status names and ParseStatus are mutually inverse, so the rendered
      name identifies the status. */
  lemma StatusNameRoundTrip(s: SalesOrderStatus, name: string)
    ensures ParseStatus(StatusName(s)) == Some(s)
    ensures ParseStatus(name) == Some(s) <==> StatusName(s) == name
  {
  }

  /** "yyyyMMdd" of a date. */
  function DateDigits(d: Date): string
    requires 1 <= d.year <= 9999 && 1 <= d.month <= 12 && 1 <= d.day <= 31
  {
    PadDigits(d.year, 4) + PadDigits(d.month, 2) + PadDigits(d.day, 2)
  }

  /** The prefix followed by the 14-digit "yyyyMMddHHmmss" reading, cut
      to its first ten characters. The cut leaves only the date. */
  function GenerateOrderNumber(now: UtcDateTime): (number: string)
    ensures |number| == OrderNumberLength
    ensures AllDigits(number)
    ensures number == OrderNumberPrefix + DateDigits(now.DatePart())
  {
    var date := DateDigits(now.DatePart());
    var time := PadDigits(now.hour, 2) + PadDigits(now.minute, 2) + PadDigits(now.second, 2);
    var stamp := date + time;
    assert OrderNumberPrefix + stamp == (OrderNumberPrefix + date) + time;
    (OrderNumberPrefix + stamp)[..OrderNumberLength]
  }

  /** Reads the date back out of an order number of the generated shape. */
  function DecodeOrderNumber(number: string): (r: Option<Date>)
    ensures r.Some? ==> |number| == OrderNumberLength && number[..2] == OrderNumberPrefix
  {
    if |number| == OrderNumberLength && number[..2] == OrderNumberPrefix && AllDigits(number) then
      Some(Date(ParseDigits(number[2..6]), ParseDigits(number[6..8]), ParseDigits(number[8..10])))
    else None
  }

  /** The order number records exactly the UTC date of the reading. */
  lemma DecodeGeneratedOrderNumber(now: UtcDateTime)
    ensures DecodeOrderNumber(GenerateOrderNumber(now)) == Some(now.DatePart())
  {
    var n := GenerateOrderNumber(now);
    assert n[2..6] == PadDigits(now.year, 4);
    assert n[6..8] == PadDigits(now.month, 2);
    assert n[8..10] == PadDigits(now.day, 2);
    ParsePadDigits(now.year, 4);
    ParsePadDigits(now.month, 2);
    ParsePadDigits(now.day, 2);
  }

  /** Two readings give the same order number exactly when they fall on
      the same UTC day: the hour, minute and second are discarded. */
  lemma OrderNumbersCollideIffSameDay(a: UtcDateTime, b: UtcDateTime)
    ensures GenerateOrderNumber(a) == GenerateOrderNumber(b) <==> a.DatePart() == b.DatePart()
  {
    DecodeGeneratedOrderNumber(a);
    DecodeGeneratedOrderNumber(b);
  }

  /** The factory. The clock is read twice in the source, first for the
      number and then for the order date, so both readings are inputs. */
  function Create(
    numberClock: UtcDateTime,
    dateClock: UtcDateTime,
    customerCode: Option<string>,
    customerName: Option<string>,
    currency: string := DefaultCurrency): (r: Result<SalesOrder, Error>)
    ensures r.Success? <==> !IsNullOrWhiteSpace(customerCode) && !IsNullOrWhiteSpace(customerName)
    ensures IsNullOrWhiteSpace(customerCode) ==>
      r == Failure(ArgumentError(CustomerCodeMessage, "customerCode"))
    ensures !IsNullOrWhiteSpace(customerCode) && IsNullOrWhiteSpace(customerName) ==>
      r == Failure(ArgumentError(CustomerNameMessage, "customerName"))
    ensures r.Success? ==>
      && r.value.status == Created
      && r.value.items == []
      && r.value.totalAmount == 0.0
      && Invariant(r.value)
      && r.value.customerCode == customerCode.value
      && r.value.customerName == customerName.value
      && r.value.currency == currency
      && r.value.orderDate == dateClock
      && r.value.salesOrderNumber == GenerateOrderNumber(numberClock)
      && DecodeOrderNumber(r.value.salesOrderNumber) == Some(numberClock.DatePart())
  {
    if IsNullOrWhiteSpace(customerCode) then
      Failure(ArgumentError(CustomerCodeMessage, "customerCode"))
    else if IsNullOrWhiteSpace(customerName) then
      Failure(ArgumentError(CustomerNameMessage, "customerName"))
    else
      DecodeGeneratedOrderNumber(numberClock);
      Success(SalesOrder(
        GenerateOrderNumber(numberClock), dateClock,
        customerCode.value, customerName.value,
        0.0, currency, Created, []))
  }

  /** Leaving out the currency gives "BRL". */
  lemma CreateDefaultsCurrency(
    numberClock: UtcDateTime, dateClock: UtcDateTime,
    customerCode: Option<string>, customerName: Option<string>)
    requires Create(numberClock, dateClock, customerCode, customerName).Success?
    ensures Create(numberClock, dateClock, customerCode, customerName).value.currency == "BRL"
  {
  }

  /** Appending to the item list adds the new item's total to the sum. */
  lemma {:induction false} SumTotalsAppend(items: seq<SalesOrderItem>, item: SalesOrderItem)
    ensures SumTotals(items + [item]) == SumTotals(items) + item.totalPrice
  {
    if |items| > 0 {
      assert (items + [item])[1..] == items[1..] + [item];
      SumTotalsAppend(items[1..], item);
    }
  }

  /** Appends an item (a null item is rejected) and recomputes the total. */
  function AddItem(order: SalesOrder, item: Option<SalesOrderItem>): (r: Result<SalesOrder, Error>)
    ensures item.None? ==> r == Failure(ArgumentNullError("item"))
    ensures item.Some? ==>
      && r.Success?
      && r.value.items == order.items + [item.value]
      && SameIdentity(order, r.value)
      && r.value.status == order.status
      && TotalConsistent(r.value)
    ensures item.Some? && TotalConsistent(order) ==>
      r.value.totalAmount == order.totalAmount + item.value.totalPrice
    ensures item.Some? && Invariant(order) && Valid(item.value) ==> Invariant(r.value)
  {
    match item
    case None => Failure(ArgumentNullError("item"))
    case Some(it) =>
      SumTotalsAppend(order.items, it);
      Success(RecalculateTotalAmount(order.(items := order.items + [it])))
  }

  /** Sets the total to the sum of the item totals. */
  function RecalculateTotalAmount(order: SalesOrder): (r: SalesOrder)
    ensures TotalConsistent(r)
    ensures r.(totalAmount := order.totalAmount) == order
  {
    order.(totalAmount := SumTotals(order.items))
  }

  /** Moves the order to Confirmed whatever its current status; only an
      empty item list is refused. */
  function Confirm(order: SalesOrder): (r: Result<SalesOrder, Error>)
    ensures r.Failure? <==> |order.items| == 0
    ensures r.Failure? ==> r.error == InvalidOperation(ConfirmMessage)
    ensures r.Success? ==>
      && r.value.status == Confirmed
      && r.value.items == order.items
      && r.value.totalAmount == order.totalAmount
      && SameIdentity(order, r.value)
    ensures r.Success? && Invariant(order) ==> Invariant(r.value)
  {
    if |order.items| == 0 then Failure(InvalidOperation(ConfirmMessage))
    else Success(order.(status := Confirmed))
  }

  /** Confirming twice is the same as confirming once. */
  lemma ConfirmIdempotent(order: SalesOrder)
    requires Confirm(order).Success?
    ensures Confirm(Confirm(order).value) == Confirm(order)
  {
  }

  /** Nothing stops an item being added after confirmation: the order
      stays Confirmed and takes the item. */
  lemma AddItemAfterConfirm(order: SalesOrder, item: SalesOrderItem)
    requires Confirm(order).Success?
    ensures var after := AddItem(Confirm(order).value, Some(item));
      && after.Success?
      && after.value.status == Confirmed
      && after.value.items == order.items + [item]
  {
  }
}
