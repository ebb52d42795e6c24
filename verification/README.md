# Sales-order domain model and creation workflow, in Dafny

This project models the core of a sales-order backend:
- the order line item (`SalesOrderItem`) with its validating factory;
- the sales-order aggregate (`SalesOrder`): factory, item append with total recomputation, confirmation, and the ERP-style order-number generator;
- the application use case (`SalesOrderService`): create an order from a request, confirm it, submit it to the ERP port, store the port's answer, and map it to the response shape; plus lookup by number and listing;
- the in-memory repository (`SalesOrderRepository`), an append-only list.

Everything is an immutable value and every operation is a pure function:
- A thrown exception becomes `Failure(e)` of a `Result`. The `Errors.Error` kinds are `ArgumentError(message, paramName)`, `ArgumentNullError`, `InvalidOperation` and `IntegrationFailure`.
- A C# `null` becomes `Option.None`.
- The repository is a `seq<SalesOrder>` that each call takes and, where it changes it, returns.
- The create workflow returns a `WorkflowOutcome`: its result, the store afterwards, and the list of orders handed to the ERP port. "The ERP port was not called" and "the repository is unchanged" are therefore statements about that outcome.
- The ERP port is a function parameter `SalesOrder -> Result<SalesOrder, Error>`. `IdentityErp` stands for the stub connector, which returns its argument.
- The clock is a parameter. `SalesOrder.Create` reads `DateTime.UtcNow` twice: once inside the number generator, then again for `OrderDate`. The model therefore takes two readings, `numberClock` and `dateClock`.
- Prices are C# `decimal`, which is exact, so they are `real`.
- `string.IsNullOrWhiteSpace` is `Text.IsNullOrWhiteSpace`. It uses the character set `System.Char.IsWhiteSpace` accepts: the Unicode space, line and paragraph separators, U+0009 to U+000D, and U+0085.

Modules and files:
- `wrappers.dfy`: `Option`, `Result`.
- `errors.dfy`: the error kinds.
- `text.dfy`: whitespace, zero-padded digits and their parser.
- `calendar.dfy`: UTC date-time values.
- `sales_order_item.dfy`: `ItemEntity`.
- `sales_order.dfy`: `OrderEntity`.
- `sales_order_repository.dfy`: `OrderRepository`.
- `sales_order_service.dfy`: `OrderService`.
- `workflow_properties.dfy`: cross-step properties of the workflow.
- `scenarios.dfy`: concrete end-to-end examples.

Behaviour of the code worth knowing, all of it modelled as written:
- `SalesOrderItem.Create` validates only quantity and unit price. Material code, description, unit and item number are stored unchecked.
- The order number is `"40" + yyyyMMddHHmmss` cut to ten characters, which keeps only the date. Every order placed on the same UTC day gets the same number (`OrderEntity.OrderNumbersCollideIffSameDay`). The repository stores such duplicates, and lookup then always returns the first one (`OrderRepository.DuplicateNumberKeepsFirst`, `Scenarios.SameDayOrdersShareNumber`).
- The HTTP controller catches only `ArgumentException`, so the `InvalidOperationException` from confirming an empty order becomes a 500 response. The controller is not modelled; `Errors.IsArgumentKind` marks the errors it turns into a 400.
- `Confirm` does not look at the current status: it refuses only an empty order, and an order in any status, including Cancelled, becomes Confirmed. Items can still be added after confirmation (`OrderEntity.AddItemAfterConfirm`).

## Model

| member | source | states |
|---|---|---|
| ItemEntity.Create | Domain/Entities/SalesOrderItem.cs:18-44 | A quantity ≤ 0 fails with an ArgumentException naming `quantity`, whatever the price. Otherwise a price ≤ 0 fails naming `unitPrice`. Creation succeeds exactly when both are positive. On success every argument is stored unchanged and the total is exactly quantity × unit price, so it is positive. |
| ItemEntity.CalculateTotalPrice | Domain/Entities/SalesOrderItem.cs:46-49 | The item it returns satisfies the item invariant (total = quantity × unit price, and positive). It changes no field other than the total. |
| ItemEntity.CreateMatchesValidationError | Domain/Entities/SalesOrderItem.cs:26-30 | Creation fails exactly when the quantity-then-price check reports an error, and then with that error. |
| ItemEntity.CreateDefaultsUnit | Domain/Entities/SalesOrderItem.cs:24 | Leaving out the unit gives "UN". |
| OrderEntity.StatusNameRoundTrip | Domain/Entities/SalesOrder.cs:76-83 | Each status renders to a name that parses back to it, and only that status renders to that name. |
| OrderEntity.GenerateOrderNumber | Domain/Entities/SalesOrder.cs:69-73 | The number has 10 characters, all digits: "40" followed by the zero-padded UTC yyyyMMdd. Hour, minute and second do not appear in it. |
| OrderEntity.DecodeGeneratedOrderNumber | Domain/Entities/SalesOrder.cs:69-73 | Decoding a generated number gives back exactly the UTC date of the clock reading. |
| OrderEntity.OrderNumbersCollideIffSameDay | Domain/Entities/SalesOrder.cs:72 | Two readings give equal order numbers if and only if they fall on the same UTC day. |
| OrderEntity.Create | Domain/Entities/SalesOrder.cs:24-45 | A null or whitespace customer code fails naming `customerCode`, and is checked before the name. Otherwise a null or whitespace name fails naming `customerName`. Creation succeeds exactly when both are present. A new order has status Created, no items, total 0, the invariant, the given customer fields and currency, the second clock reading as its date, and a number encoding the first reading's date. |
| OrderEntity.CreateDefaultsCurrency | Domain/Entities/SalesOrder.cs:27 | Leaving out the currency gives "BRL". |
| OrderEntity.SumTotalsAppend | Domain/Entities/SalesOrder.cs:56-59 | Appending an item adds exactly its total price to the sum of item totals. |
| OrderEntity.AddItem | Domain/Entities/SalesOrder.cs:47-54 | A null item fails with an ArgumentNullException naming `item`. Otherwise the item goes at the end of the list. Number, date, customer, currency and status are unchanged. Afterwards the total is the sum of the item totals: the old total plus the new item's, when the old one was consistent. The aggregate invariant is preserved. |
| OrderEntity.RecalculateTotalAmount | Domain/Entities/SalesOrder.cs:56-59 | After the call the total equals the sum of the items' totals; nothing else changes. |
| OrderEntity.Confirm | Domain/Entities/SalesOrder.cs:61-67 | Fails with InvalidOperation exactly when there are no items. Otherwise the status becomes Confirmed, whatever it was before. Items, total, identity fields and the invariant are kept. |
| OrderEntity.ConfirmIdempotent | Domain/Entities/SalesOrder.cs:61-67 | Confirming a confirmed order gives the same result as confirming it once. |
| OrderEntity.AddItemAfterConfirm | Domain/Entities/SalesOrder.cs:47-67 | A confirmed order still accepts items and stays Confirmed. |
| OrderRepository.GetByOrderNumber | Infrastructure/Repositories/SalesOrderRepository.cs:15-22 | Returns null exactly when no stored order has the number. Otherwise it returns the earliest stored order that has it. |
| OrderRepository.GetAll | Infrastructure/Repositories/SalesOrderRepository.cs:24-30 | The snapshot has every stored order, position by position, in insertion order. |
| OrderRepository.CreateOrder | Infrastructure/Repositories/SalesOrderRepository.cs:32-39 | The store grows by exactly one and keeps its earlier entries as they were. The new order is last, and it is also what the call returns. |
| OrderRepository.LookupAfterCreate | Infrastructure/Repositories/SalesOrderRepository.cs:15-39 | After a create, a lookup gives the old answer if the number was already stored. Otherwise it finds the new order exactly when the numbers agree. |
| OrderRepository.DuplicateNumberKeepsFirst | Infrastructure/Repositories/SalesOrderRepository.cs:19-36 | Two creates with the same number are both stored, and lookup still returns the first. |
| OrderRepository.GetAllAfterCreate | Infrastructure/Repositories/SalesOrderRepository.cs:28-36 | After a create, the listing holds exactly one more copy of the new order and loses nothing. |
| OrderService.MapToResponse | Application/Services/SalesOrderService.cs:73-95 | Every header field is copied. The status is rendered by its enum name. Items are mapped one to one and in order. The order can be read back from the response unchanged. |
| OrderService.MapToResponseInjective | Application/Services/SalesOrderService.cs:73-95 | Distinct orders give distinct responses. |
| OrderService.AddRequestItems | Application/Services/SalesOrderService.cs:33-46 | Succeeds exactly when every requested line has positive quantity and price. Otherwise it fails with the validation error of the first bad line. On success the i-th line becomes the item numbered start + 10·i, appended after the existing items in request order. Identity and status are unchanged and the total is consistent. |
| OrderService.BuildConfirmedOrder | Application/Services/SalesOrderService.cs:26-49 | Succeeds exactly when both customer fields are present, there is at least one item, and every item is valid. Failures come in this order: customer code, customer name, first invalid line, empty order at confirmation. The built order is Confirmed, satisfies the invariant, and has its i-th item numbered 10·(i+1) taken from the i-th requested line. |
| OrderService.CreateSalesOrder | Application/Services/SalesOrderService.cs:24-59 | Succeeds exactly when the order builds and the ERP port accepts it. A domain failure returns before the ERP port is called. Otherwise the confirmed order is submitted exactly once. An ERP failure propagates unchanged. Nothing is stored on any failure. On success the ERP port's answer is appended to the store and is what gets mapped and returned. |
| OrderService.GetSalesOrder | Application/Services/SalesOrderService.cs:61-65 | Returns null exactly when no stored order has the number. Otherwise it returns the mapping of the earliest stored order that has it, whose number is the key. |
| OrderService.GetAllSalesOrders | Application/Services/SalesOrderService.cs:67-71 | Returns one response per stored order, in store order, each of which reads back as that order. |
| WorkflowProperties.CustomerFailureAbortsFirst | Application/Services/SalesOrderService.cs:27-30 | A null or blank customer code fails naming `customerCode`. No ERP submission is made and the store is unchanged. |
| WorkflowProperties.ItemFailureAborts | Application/Services/SalesOrderService.cs:33-46 | The first invalid line ends the call with that line's ArgumentException. No ERP submission is made and the store is unchanged. |
| WorkflowProperties.EmptyRequestFailsAtConfirm | Application/Services/SalesOrderService.cs:49 | A request with valid customer fields and no items fails with InvalidOperation. Neither port is used. |
| WorkflowProperties.IdentityErpTotal | Application/Services/SalesOrderService.cs:49-58 | With the stub ERP port every valid request succeeds. The response has status "Confirmed" and a total equal to the sum of the totals its lines show. |
| WorkflowProperties.IdentityErpItems | Application/Services/SalesOrderService.cs:33-58 | With the stub ERP port the response has one line per requested line, in request order. Lines are numbered 10, 20, 30… and each is built from its requested line. The request's customer fields and currency are kept. |
| WorkflowProperties.GetAfterCreate | Application/Services/SalesOrderService.cs:52-65 | After a successful create, looking up the new number returns the new order unless an earlier order already holds that number. |
| WorkflowProperties.ListingGrowsByResponse | Application/Services/SalesOrderService.cs:55-71 | After a successful create, the listing is the old listing followed by the new response. |
| WorkflowProperties.CreatedOrderListedOnce | Application/Services/SalesOrderService.cs:55-71 | After a successful create, the listing holds exactly one more copy of the new response than before, whatever numbers were stored already. It holds exactly one copy when that response was not listed before. |
| WorkflowProperties.OrderFromResponseInjective | Application/Services/SalesOrderService.cs:73-95 | Two responses that read back as the same order are equal. Together with the round trip, this means a listing entry identifies its stored order. |
| Scenarios.SingleLineOrder | Application/Services/SalesOrderService.cs:24-59 | Two units at 10.50 give one item numbered 10 with total 21.00, order total 21.00, status "Confirmed" and number 4020240315. One entry is stored. |
| Scenarios.TwoLineOrder | Application/Services/SalesOrderService.cs:33-46 | Two lines are numbered 10 and 20, with line totals 21.00 and 3.75, and the order total equals the sum of the two line totals shown. |
| Scenarios.UnknownNumberIsAbsent | Application/Services/SalesOrderService.cs:61-65 | Looking up a number that was never stored returns null, not an error. |
| Scenarios.SameDayOrdersShareNumber | Domain/Entities/SalesOrder.cs:69-73 | Two orders created on the same UTC day get the same number, both are stored, and lookup returns the first. |

## Left out

- HTTP layer (API/Controllers/SalesOrderController.cs): routing, logging, and the translation of exceptions to 400/500 responses. This is framework-bound.
- Program.cs: dependency injection, JWT bearer and Swagger configuration. It is configuration only.
- `async`/`Task` and the repository's `lock`: every call is treated as sequential. The concurrency promises (no lost writes under parallel creates) are not modelled.
- ERP stub (Infrastructure/Services/SapSdServiceMock.cs): its delay and console output are not modelled. Its create operation is the identity, `IdentityErp`. The port's `GetSalesOrderFromSapAsync` is not modelled because the workflow never calls it.
- Repository failures: the in-memory store cannot fail, so no failure path exists for `CreateAsync`.
- Reference sharing: the C# order is a mutable object shared by the caller, the ERP stub and the store. The model copies values, which is the same in this workflow because nothing mutates an order after it is stored.
- Numeric limits: decimal overflow and 28-digit rounding, and 32-bit overflow of quantities and item numbers. Prices are exact reals and integers are unbounded.
- Date formatting culture: the custom format "yyyyMMddHHmmss" uses the current culture's calendar. The model assumes the Gregorian calendar of the invariant culture.
- Exception messages: .NET appends " (Parameter 'name')" to `ArgumentException.Message`. The model keeps the message and the parameter name as separate fields.
- Other nulls: a null request, a null items list, a null element of the items list, and null item strings or a null currency are not modelled. A null list or a null element would raise a `NullReferenceException` in the loop. The string fields are passed through unchecked, so they are plain strings here.
- ERP port returning null: `ErpPort` always returns an order or a failure. The model relies on the port's non-null return annotation. A port that returned null would make `CreateAsync` store the null and `MapToResponse` throw afterwards, a partial commit. Later `FirstOrDefault` lookups would also throw on that entry.
- `AddItem(null)`: the failure result carries no order, and the caller keeps its value, so "the order is unchanged" holds by construction rather than being stated.
