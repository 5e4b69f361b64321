# Order and product creation — a Dafny model

This project models the decision logic of a small Express/TypeORM service
that creates commerce orders and products. Each "create" use case checks the
request against fixed bounds with fail-fast guards. It then builds a domain
record and hands it once to an injected repository's `save`. Any failure of
`save` is replaced with one fixed message.

Modules:

- `Outcomes` (`outcomes.dfy`): `Option`, `Result`, and `Outcome`. `Outcome` is
  how `execute` settles: `Success`, or `Failure(message)` for the bare `Error`
  the code throws.
- `OrderEntity` (`order.dfy`): the `OrderStatus` enumeration, its string
  values and the `Order` record.
- `Repository` (`repository.dfy`): the one-method storage seam, as a class
  `Store<T>`. It holds what `save` kept (`stored`) and every argument `save`
  received (`received`, a ghost record). Its `failure` field decides how the
  next `save` behaves: `None` returns normally, and `Some(cause)` throws.
  Fixed for a whole run, it gives the two test doubles; changed between
  calls, it gives a store that fails on some calls only.
- `CreateOrder` (`create_order.dfy`): the guard chain `Validate`, the
  construction `Prepare`, and the class `CreateOrderUseCase` whose `Execute`
  runs the same four guards in source order. It also holds a value-level
  account of repeated calls against one repository (`StoredAfterAll`), where
  each call records whether its `save` threw, with lemmas about what such a
  series leaves stored.
- `CreateProduct` (`create_product.dfy`): the same pattern for products,
  with the bounds `0 <= price <= 10000`.
- `Scenarios` (`scenarios.dfy`): client methods checked against the
  specifications. They replay the three end-to-end scenarios and the unit
  test, plus cases the tests do not cover: a failing save, a store that
  recovers, and the product price bounds.

Two facts about the source shape the model:

- The code throws plain `Error` values with French messages. It has no
  separate validation and persistence error types. The model keeps the
  messages verbatim.
- The product price message says "supérieur à 0" (greater than 0), but the
  guard is `price < 0`, so a price of 0 is accepted. The model accepts it.

## Model

| member | source | states |
|---|---|---|
| OrderEntity.StatusValue | src/module/order/Order.ts:25-29 | every status string is non-empty and fits the 50-character status column |
| OrderEntity.StatusRoundTrip | src/module/order/Order.ts:3-9 | reading a status's string value back gives the same status, so each member has its own value |
| OrderEntity.ParseStatusExact | src/module/order/Order.ts:4-8 | exactly the five strings PENDING, CONFIRMED, SHIPPED, DELIVERED and CANCELLED are status values, each the value of the member it names |
| OrderEntity.StatusValueInjective | src/module/order/Order.ts:3-9 | two statuses with the same string value are the same status |
| OrderEntity.AllStatusesEnumerates | src/module/order/Order.ts:3-9 | the enumeration has exactly five members, each listed once |
| Repository.Store.constructor | src/module/order/createOrder/test/createOrderUseCase.spec.ts:6-16 | a fresh repository is empty, and its next `save` behaves as given: like the dummy that returns or the double that throws |
| Repository.Store.Save | src/module/order/createOrder/createOrderRepository.ts:3-5 | `save` records its argument as received, keeps it exactly when it does not throw, reports the configured failure, and leaves the failure setting as it was |
| CreateOrder.Validate | src/module/order/createOrder/createOrderUseCase.ts:21-35 | a request passes if and only if it has 1 to 5 products and a total price from 2 to 500, bounds included; otherwise the result is one of the four guard messages |
| CreateOrder.ProductCountReportedFirst | src/module/order/createOrder/createOrderUseCase.ts:21-35 | a bad product count is reported with its own message whatever the price, and a price message appears only when the count is right |
| CreateOrder.PriceReportedWhenCountValid | src/module/order/createOrder/createOrderUseCase.ts:29-35 | with a valid count, a price below 2 gets the low-price message and one above 500 the high-price message |
| CreateOrder.MessagesDistinct | src/module/order/createOrder/createOrderUseCase.ts:21-49 | the four guard messages and the save-failure message are pairwise different |
| CreateOrder.CreatedOrderHasDefaultStatus | src/module/order/Order.ts:28 | every order the use case builds carries the status the column would default to, PENDING |
| CreateOrder.Prepare | src/module/order/createOrder/createOrderUseCase.ts:21-41 | an order is built if and only if the request is within bounds; it carries the request's product ids and total price, status PENDING, the clock reading, and no id; otherwise the first failed guard's message is returned |
| CreateOrder.SessionStoresOnlyCreatedOrders | src/module/order/createOrder/createOrderUseCase.ts:11-50 | over any series of calls, with `save` throwing on any subset of them, a repository that held only valid PENDING orders without ids still holds only such orders |
| CreateOrder.SessionAppendsSavedOrders | src/module/order/createOrder/createOrderUseCase.ts:37-49 | a series of calls appends exactly the orders of the accepted requests whose `save` returned, in call order, duplicates included |
| CreateOrder.SessionWithThrowingRepository | src/module/order/createOrder/createOrderUseCase.ts:45-49 | if `save` throws on every call of a series, the series stores nothing |
| CreateOrder.RepeatedRequestStoredTwice | src/module/order/createOrder/createOrderUseCase.ts:37-46 | two identical valid requests whose `save` returns leave two records: there is no deduplication |
| CreateOrder.CreateOrderUseCase.constructor | src/module/order/createOrder/createOrderUseCase.ts:7-9 | the use case keeps the repository it is given |
| CreateOrder.CreateOrderUseCase.Execute | src/module/order/createOrder/createOrderUseCase.ts:11-50 | an invalid request fails with the first guard's message and leaves the repository untouched; a valid one reaches `save` exactly once with the prepared PENDING order; it then succeeds, or fails with the fixed message whatever the underlying cause |
| CreateProduct.Validate | src/module/product/createProduct/createProductUseCase.ts:21-27 | a request passes if and only if `0 <= price <= 10000`; the negative-price message appears exactly when the price is below 0, and the high-price message exactly when it is above 10000 |
| CreateProduct.TitleAndDescriptionUnchecked | src/module/product/createProduct/createProductUseCase.ts:11-27 | requests with the same price are judged alike, whatever their title and description |
| CreateProduct.PriceBoundsInclusive | src/module/product/createProduct/createProductUseCase.ts:21-27 | prices 0 and 10000 are both accepted |
| CreateProduct.Prepare | src/module/product/createProduct/createProductUseCase.ts:21-30 | a product is built if and only if the price is in bounds, carrying the given title, description and price; otherwise the guard's message is returned |
| CreateProduct.CreateProductUseCase.constructor | src/module/product/createProduct/createProductUseCase.ts:7-9 | the use case keeps the repository it is given |
| CreateProduct.CreateProductUseCase.Execute | src/module/product/createProduct/createProductUseCase.ts:11-37 | an out-of-range price fails with its guard's message and leaves the repository untouched; otherwise `save` is reached exactly once with the product; the result is success, or the fixed failure message whatever the cause |

## Left out

- The HTTP controller (`createOrderController.ts`). It sends every thrown `Error` as a 400 response, so its 500 branch is never reached from the use case.
- The TypeORM adapter and its global data source. The repository is the in-memory `Store`, which keeps records as given. Assigning `id` is the storage layer's concern.
- The ORM mapping of `Order`: the `simple-array` encoding of `productIds`, the `float` column and the generated key. Only the 50-character status column and the PENDING column default are modelled; `CreatedOrderHasDefaultStatus` shows the use case's explicit PENDING agrees with that default.
- `createdAt = new Date()` reads the wall clock. The caller passes the reading in as `now`.
- `async`/`await`. `execute` is a synchronous method returning an `Outcome`. Its only suspension point is `save`, and there is nothing concurrent to capture within a call.
- JavaScript number semantics. Prices are `real` and product ids `int`. NaN, and non-array or non-number JSON bodies slipping past the `<`/`>` guards, are not modelled.
- The `Product` class and the product repository interface are not part of this model. `Product` is reduced to the title, description and price its constructor receives. Its repository is the same `Store` as for orders.
- Order status transitions: the code defines the enumeration but no operation that changes a status.
