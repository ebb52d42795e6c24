/** One priced line of a sales order. Items only come out of the
    validating factory Create and never change afterwards. */
module ItemEntity {
  import opened Wrappers
  import opened Errors

  /** The unit of measure used when the caller gives none. */
  const DefaultUnit: string := "UN"

  const QuantityMessage: string := "Quantity must be greater than zero"
  const UnitPriceMessage: string := "Unit price must be greater than zero"

  /** Prices are C# decimals: exact, so they are modelled as reals. */
  datatype SalesOrderItem = SalesOrderItem(
    itemNumber: int,
    materialCode: string,
    materialDescription: string,
    quantity: int,
    unitPrice: real,
    totalPrice: real,
    unit: string)

  /** What every item built by Create satisfies: positive quantity and
      price, and a total that is exactly their product. */
  predicate Valid(item: SalesOrderItem) {
    && item.quantity > 0
    && item.unitPrice > 0.0
    && item.totalPrice == item.quantity as real * item.unitPrice
  }

  /** The error Create reports for a quantity and price, if any. Quantity
      is examined first. */
  function ValidationError(quantity: int, unitPrice: real): Option<Error> {
    if quantity <= 0 then Some(ArgumentError(QuantityMessage, "quantity"))
    else if unitPrice <= 0.0 then Some(ArgumentError(UnitPriceMessage, "unitPrice"))
    else None
  }

  function Create(
    itemNumber: int,
    materialCode: string,
    materialDescription: string,
    quantity: int,
    unitPrice: real,
    unit: string := DefaultUnit): (r: Result<SalesOrderItem, Error>)
    // the two rejections, quantity first
    ensures quantity <= 0 ==> r == Failure(ArgumentError(QuantityMessage, "quantity"))
    ensures quantity > 0 && unitPrice <= 0.0 ==> r == Failure(ArgumentError(UnitPriceMessage, "unitPrice"))
    ensures r.Success? <==> quantity > 0 && unitPrice > 0.0
    // every argument is kept as given; none but quantity and price is checked
    ensures r.Success? ==>
      && r.value.itemNumber == itemNumber
      && r.value.materialCode == materialCode
      && r.value.materialDescription == materialDescription
      && r.value.quantity == quantity
      && r.value.unitPrice == unitPrice
      && r.value.unit == unit
    // the derived total is the exact product, hence positive
    ensures r.Success? ==> Valid(r.value) && r.value.totalPrice > 0.0
  {
    if quantity <= 0 then
      Failure(ArgumentError(QuantityMessage, "quantity"))
    else if unitPrice <= 0.0 then
      Failure(ArgumentError(UnitPriceMessage, "unitPrice"))
    else
      var item := SalesOrderItem(itemNumber, materialCode, materialDescription,
                                 quantity, unitPrice, 0.0, unit);
      Success(CalculateTotalPrice(item))
  }

  /** Sets the derived total from quantity and unit price. */
  function CalculateTotalPrice(item: SalesOrderItem): (r: SalesOrderItem)
    requires item.quantity > 0 && item.unitPrice > 0.0
    ensures Valid(r) && r.totalPrice > 0.0
    ensures r.(totalPrice := item.totalPrice) == item
  {
    item.(totalPrice := item.quantity as real * item.unitPrice)
  }

  /** Create fails exactly when ValidationError names a field, and then
      with that error. */
  lemma CreateMatchesValidationError(
    itemNumber: int, materialCode: string, materialDescription: string,
    quantity: int, unitPrice: real, unit: string)
    ensures var r := Create(itemNumber, materialCode, materialDescription, quantity, unitPrice, unit);
      && (r.Failure? <==> ValidationError(quantity, unitPrice).Some?)
      && (r.Failure? ==> r.error == ValidationError(quantity, unitPrice).value)
  {
  }

  /** Leaving out the unit gives "UN". */
  lemma CreateDefaultsUnit(
    itemNumber: int, materialCode: string, materialDescription: string,
    quantity: int, unitPrice: real)
    requires quantity > 0 && unitPrice > 0.0
    ensures Create(itemNumber, materialCode, materialDescription, quantity, unitPrice).Success?
    ensures Create(itemNumber, materialCode, materialDescription, quantity, unitPrice).value.unit == "UN"
  {
  }
}
