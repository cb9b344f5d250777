/**
 * The order routes of the server over an in-memory store: the product stock,
 * the users and the orders that the database would hold.
 */
module Service {
  import opened Wrappers
  import opened Http
  import opened Orders

  /** Thrown by the handler when the stock check fails; the wrapper sends it as a server error. */
  const InsufficientStock: Error := PlainError("Insufficient Stock")
  /** Reported by the store when `order.create` references a user or product it does not hold. */
  const ForeignKeyViolation: Error := KnownRequestError("P2003", "Foreign key constraint failed")
  /** Reported by `findUniqueOrThrow` for an unknown order id. */
  const OrderNotFound: Error := KnownRequestError(RecordNotFound, "No Order found")

  /** The references of `order.create` resolve: the user exists and so does every product an item names. */
  predicate References(stock: map<ProductId, int>, users: set<UserId>, req: OrderRequest)
    ensures References(stock, users, req) <==>
            req.userId in users &&
            forall i :: 0 <= i < |req.orderItems| ==> req.orderItems[i].productId in stock
  {
    req.userId in users && ProductsExist(stock, req.orderItems)
  }

  class Store {
    var stock: map<ProductId, int>
    var users: set<UserId>
    var orders: map<OrderId, Order>

    constructor (stock: map<ProductId, int>, users: set<UserId>)
      ensures this.stock == stock && this.users == users && orders == map[]
    {
      this.stock := stock;
      this.users := users;
      orders := map[];
    }

    /**
     * The handler of `POST /orders`. `validation` is the outcome of the schema
     * check (`Some(message)` when it failed) and `newId` the id the database
     * gives the new order. The stock check runs on the store as it is; if it
     * passes, the order and every decrement are applied as one transaction
     * that either commits as a whole or leaves the store untouched.
     */
    method PlaceOrder(req: OrderRequest, validation: Option<string>, newId: OrderId)
      returns (r: Result<Order, Error>)
      requires newId !in orders  // the database never hands out an id twice
      modifies this
      ensures users == old(users)
      ensures validation.Some? ==> r == Failure(StructError(validation.value))
      ensures validation.None? && !IsSufficientStock(old(stock), req.orderItems) ==>
                r == Failure(InsufficientStock)
      ensures (validation.None? && IsSufficientStock(old(stock), req.orderItems) &&
               !References(old(stock), old(users), req)) ==> r == Failure(ForeignKeyViolation)
      ensures r.Success? <==>
                validation.None? && IsSufficientStock(old(stock), req.orderItems) &&
                References(old(stock), old(users), req)
      ensures r.Failure? ==> stock == old(stock) && orders == old(orders)
      ensures r.Success? ==>
                && r.value == Order(newId, req.userId, req.orderItems)
                && orders == old(orders)[newId := r.value]
                && ProductsExist(old(stock), req.orderItems)
                && stock == Decrements(old(stock), req.orderItems)
    {
      if validation.Some? {
        return Failure(StructError(validation.value));
      }
      var items := req.orderItems;
      if !IsSufficientStock(stock, items) {
        return Failure(InsufficientStock);
      }
      // the transaction: order.create first, then the update queries, committed together
      if !References(stock, users, req) {
        return Failure(ForeignKeyViolation);
      }
      var order := Order(newId, req.userId, items);
      var next := RunDecrements(stock, items);
      stock, orders := next, orders[newId := order];
      r := Success(order);
    }

    /** `POST /orders` behind the wrapper: 201 with the order, or the classified error. */
    method PostOrders(req: OrderRequest, validation: Option<string>, newId: OrderId)
      returns (resp: Response<Order>)
      requires newId !in orders
      modifies this
      ensures resp.status == 201 <==>
                validation.None? && IsSufficientStock(old(stock), req.orderItems) &&
                References(old(stock), old(users), req)
      ensures resp.status == 400 <==> validation.Some?
      ensures resp.status == 500 <==> resp.status != 201 && validation.None?
      ensures users == old(users)
      ensures resp.status == 201 ==>
                && resp.body == Payload(Order(newId, req.userId, req.orderItems))
                && orders == old(orders)[newId := Order(newId, req.userId, req.orderItems)]
                && ProductsExist(old(stock), req.orderItems)
                && stock == Decrements(old(stock), req.orderItems)
      ensures resp.status == 400 ==> resp.body == MessageBody(validation.value)
      ensures resp.status == 500 ==>
                resp.body == MessageBody(if IsSufficientStock(old(stock), req.orderItems)
                                         then ForeignKeyViolation.message
                                         else InsufficientStock.message)
      ensures resp.status != 201 ==> stock == old(stock) && orders == old(orders)
    {
      var r := PlaceOrder(req, validation, newId);
      resp := Respond(r, 201);
    }

    /** The handler of `GET /orders/:id` before the wrapper: the order with its computed total. */
    method OrderById(id: OrderId) returns (r: Result<OrderWithTotal, Error>)
      ensures id !in orders ==> r == Failure(OrderNotFound)
      ensures id in orders ==> r.Success? && r.value.order == orders[id]
      ensures id in orders ==> r.value.total == Total(orders[id].orderItems)
    {
      if id !in orders {
        return Failure(OrderNotFound);
      }
      var order := orders[id];
      var total := OrderTotal(order.orderItems);
      r := Success(OrderWithTotal(order, total));
    }

    /** `GET /orders/:id` behind the wrapper: 200 with the order and total, or 404 "Not Found". */
    method GetOrder(id: OrderId) returns (resp: Response<OrderWithTotal>)
      ensures id !in orders ==> resp == Response(404, StatusText("Not Found"))
      ensures id in orders ==>
                resp == Response(200, Payload(OrderWithTotal(orders[id], Total(orders[id].orderItems))))
    {
      var r := OrderById(id);
      resp := Respond(r, 200);
    }
  }

  /** The insufficient-stock error is not a client error: the wrapper answers it with 500. */
  lemma InsufficientStockIsServerError()
    ensures Classify<Order>(InsufficientStock) == Response(500, MessageBody("Insufficient Stock"))
  {
  }

  /**
   * A store with stock 5 of product P1: an order for 3 succeeds and leaves 2;
   * the same order then fails, as often as it is repeated, and the stock stays 2.
   */
  method PlacementScenario()
  {
    var store := new Store(map["P1" := 5], {"U1"});
    var items := [OrderItem("P1", 3, 999)];
    var req := OrderRequest("U1", items);
    assert ProductIds(items) == ["P1"];
    assert GetQuantity(items, "P1") == 3;
    var first := store.PlaceOrder(req, None, "O1");
    assert first.Success?;
    DistinctItemDecrementedByItsQuantity(map["P1" := 5], items, 0);
    assert store.stock["P1"] == 2;
    assert store.orders["O1"].orderItems == items;
    var second := store.PlaceOrder(req, None, "O2");
    assert second == Failure(InsufficientStock);
    var third := store.PlaceOrder(req, None, "O3");
    assert third == Failure(InsufficientStock) && store.stock["P1"] == 2 && "O2" !in store.orders;
  }
}
