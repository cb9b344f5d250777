# COMAZON order placement, modelled in Dafny

COMAZON is an Express/Prisma REST server for users, products and orders. Almost all of
its routes hand their input straight to the database. This model covers the parts of
`app.js` that have logic of their own:

- the order-placement rule of `POST /orders`;
- the computed `total` of `GET /orders/:id`;
- the error-to-status classification of the `asyncHandler` wrapper;
- the `orderBy` switches of `GET /users` and `GET /products`.

The database is replaced by the fields of a `Store` class (`service.dfy`):

- `stock`, a map from product id to stock;
- `users`, the set of user ids;
- `orders`, a map from order id to order.

Modules:

- `Wrappers`: `Option` and `Result`.
- `Http`: the thrown-error kinds, responses, and `Classify` (the catch branch of `asyncHandler`).
- `Sorting`: `UserOrderBy` and `ProductOrderBy`.
- `Orders`: the placement rule as functions over the stock map, the loop of update
  queries `RunDecrements`, and the lemmas about them. It also holds `Total` and the
  `forEach` loop `OrderTotal`.
- `Service`: the `Store` class. `PlaceOrder` is the `POST /orders` handler and `PostOrders`
  the same handler behind the wrapper. `OrderById` and `GetOrder` are `GET /orders/:id`
  without and with the wrapper.

How placement behaves, as the code is written:

- `productIds` has one entry per item, so repeated products are not merged.
- `getQuantity` returns the quantity of the first item naming a product.
- The stock check only looks at products the store holds. Products it does not hold are skipped.
- A failed check throws `Insufficient Stock` before any write. The wrapper answers it with 500.
- On success the order is created with the items exactly as submitted. Each element of
  `productIds` then subtracts `getQuantity` of its id. So a product listed k times is checked
  once against its first quantity and decremented k times by it. `RepeatedProductCanOverdraw`
  shows a case that leaves stock at -1.
- The transaction is a local copy of the stock map, updated in a loop (`Orders.RunDecrements`)
  and committed in one assignment together with the new order. A failure leaves every field as it was.

Points where the code's behaviour is easy to mistake:

- Repeated products are not merged. Each item decrements its product by the first item's
  quantity, rather than each product being decremented once by a summed quantity.
- Insufficient stock is answered with 500, not with a client error.
- A product the store does not hold passes the stock check, and the transaction then fails on
  `order.create`, its first write, so the whole transaction rolls back. The model assumes
  `Order.userId` and `OrderItem.productId` are foreign keys, and that Prisma reports the
  failure as a known request error with code P2003, which the wrapper answers with 500.
  The Prisma schema is not part of this model.

`Service.PlacementScenario` starts from a store with stock 5 of product P1. An order for 3
succeeds and leaves stock 2. The same order then fails twice, and the stock stays 2.

## Model

| member | source | states |
|---|---|---|
| `Http.Classify` | app.js:29-39 | StructError and Prisma validation errors give 400 with their message; a known request error with code P2025 gives 404 with the status text "Not Found" as body; every other error gives 500 with its message (each an if-and-only-if) |
| `Http.Respond` | app.js:24-42 | a handler that returns is answered with its own status and its value as payload; one that throws is answered with `Classify` of its error, a 400, 404 or 500 response without payload |
| `Http.OtherPrismaCodesAreServerErrors` | app.js:33-38 | a known request error with any code other than P2025 is answered with 500 and its message |
| `Sorting.UserOrderBy` | app.js:49-58 | users are always sorted by createdAt; ascending exactly when the parameter is "oldest", otherwise (missing included) descending |
| `Sorting.ProductOrderBy` | app.js:192-207 | "priceLowest" gives price ascending, "priceHighest" price descending, "oldest" createdAt ascending, and exactly every other value (missing included) createdAt descending |
| `Sorting.ProductKeywordRoundTrip` | app.js:194-207 | every product ordering is selected by its keyword: the switch is onto |
| `Sorting.ProductsDefaultLikeUsers` | app.js:194-207 | for any parameter other than the two price keywords, products are ordered as users are |
| `Orders.ProductIds` | app.js:286 | one id per item, in item order, repeats kept |
| `Orders.FindItem` | app.js:291-294 | the index `find` stops at names the product and no earlier item does |
| `Orders.GetQuantity` | app.js:291-294 | the quantity returned is that of an item naming the product that no earlier item names |
| `Orders.FindItemIsFirstOccurrence` | app.js:292 | for any item that is the first naming its product, `find` returns that item |
| `Orders.IsSufficientStock` | app.js:287-299 | the check over the fetched products passes if and only if every item whose product the store holds asks for no more than that product's stock, measured by `getQuantity` |
| `Orders.CheckComparesFirstOccurrences` | app.js:291-299 | the stock check passes if and only if every product the store holds has stock at least the quantity of the first item naming it |
| `Orders.GetQuantityOfPrefix` | app.js:291-294 | appending items never changes the quantity `getQuantity` gives a product already requested |
| `Orders.RepeatedItemNotChecked` | app.js:296-299 | appending an item for an already-requested product leaves the check's verdict unchanged, whatever its quantity |
| `Orders.AbsentProductsSkipped` | app.js:287-299 | appending items for products the store does not hold leaves the check's verdict unchanged |
| `Orders.AbsentProductsPassCheck` | app.js:287-299 | an order whose products are all missing from the store always passes the check |
| `Orders.IgnoredItemsLeaveCheck` | app.js:286-299 | items that name missing or already-requested products never change the check |
| `Orders.DecrementEach` | app.js:305-310 | the update queries change stock values only, never which products exist |
| `Orders.Decrements` | app.js:305-310 | the stock after one update query per element of `productIds`; it holds exactly the products the store held |
| `Orders.DecrementEachSkips` | app.js:305-310 | a product no update query names keeps its stock |
| `Orders.DecrementEachLast` | app.js:305-310 | the last update query subtracts `getQuantity` from its own product and from no other |
| `Orders.DecrementEachCounts` | app.js:305-310 | a product loses getQuantity once per update query naming it |
| `Orders.RunDecrements` | app.js:305-310 | running the update queries one after another on a copy of the stock yields exactly `Decrements` of that stock |
| `Orders.UnreferencedUnchanged` | app.js:305-310 | after placement, products named by no item keep their stock |
| `Orders.RepeatedProductDecrementedPerItem` | app.js:286-310 | a product named by k items loses k times the quantity of its first item |
| `Orders.DistinctItemDecrementedByItsQuantity` | app.js:296-310 | with no product repeated, each named product loses exactly its item's quantity, and stays non-negative when the check passed |
| `Orders.DistinctPlacementKeepsStockNonNegative` | app.js:296-310 | with no product repeated and the check passed, no stock that was non-negative becomes negative |
| `Orders.RepeatedProductCanOverdraw` | app.js:286-310 | stock 3 and two items of quantity 2 for the same product pass the check and leave stock -1 |
| `Orders.Total` | app.js:273-277 | the sum of quantity times unit price over the items: 0 for no items, and non-negative when no quantity or price is negative |
| `Orders.TotalConcat` | app.js:273-277 | the total of two item lists joined is the sum of their totals |
| `Orders.TotalFirstItem` | app.js:273-277 | the total is the first item's quantity times unit price plus the total of the rest |
| `Orders.TotalExample` | app.js:273-278 | items (2 x 10) and (1 x 5) total 25 |
| `Orders.OrderTotal` | app.js:273-278 | the loop's `total` is the sum of quantity times unit price over the items; 0 for no items |
| `Service.References` | app.js:313-326 | the references `order.create` needs resolve: the user exists and every item's product is in the store |
| `Service.Store.PlaceOrder` | app.js:282-329 | a failed schema check gives StructError, a failed stock check gives Insufficient Stock, an unresolved reference gives P2003; it succeeds exactly when none of these holds; on failure stock and orders are unchanged; on success the new order carries the submitted user and items and the stock is `Decrements` of the old stock |
| `Service.Store.PostOrders` | app.js:282-329 | 201 exactly when placement succeeds, with the created order as body, the order stored under its id and the stock equal to `Decrements` of the old stock; 400 with the schema message exactly when the schema check failed; otherwise 500 with "Insufficient Stock" or the P2003 message; users never change, and any non-201 answer leaves stock and orders unchanged |
| `Service.Store.OrderById` | app.js:265-280 | an unknown id gives P2025; a known one gives that order with its total as defined by `Total` |
| `Service.Store.GetOrder` | app.js:265-280 | an unknown id is answered 404 with the status text "Not Found"; a known one 200 with the order and its computed total |
| `Service.InsufficientStockIsServerError` | app.js:302 | the insufficient-stock error is answered with 500 and its message |

## Left out

- Express routing, `cors`, `express.json`, `app.listen` and dotenv configuration: HTTP and process plumbing.
- The user, product, saved-product and order patch/delete routes (app.js:46-255, 331-345): calls into Prisma with no logic of their own.
- Pagination (`parseInt` of `offset` and `limit`): done by Prisma's `skip`/`take`.
- The superstruct schemas (`structs.js` is not part of this model): the schema check is the `validation` parameter of `PlaceOrder`.
- Floating-point `unitPrice`: prices and totals are integers.
- Order ids and `createdAt` timestamps: the id is the `newId` parameter, assumed fresh; the clock is not modelled.
- Concurrency and transaction isolation between simultaneous placements: the model is sequential, so each placement sees the store as the previous one left it.
- Other database failures inside the transaction (connection loss, other constraints): only the foreign-key failure of `order.create` is modelled; every failure rolls back the same way.
- Query-string values that are arrays or objects: the `order` parameter is a string or missing; any other value also reaches the default case.
- Stock, quantities and prices are unbounded integers: a failure of the database's integer range during a decrement, or an overflowing total, is not modelled.
- `Http.Classify`: the status-text body of `sendStatus` is modelled as the text "Not Found" only; its content type and length are not modelled.
- `Sorting.UserOrderBy`, `Sorting.ProductOrderBy`: produce the Prisma `orderBy` object as a field and a direction; the sorting itself is done by the database.
