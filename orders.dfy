/**
 * The order-placement rule of `POST /orders` and the computed total of
 * `GET /orders/:id`, stated over a map from product id to stock that stands in
 * for the product table.
 */
module Orders {

  type ProductId = string
  type UserId = string
  type OrderId = string

  /** A line item as submitted: quantity and unit price are the caller's. */
  datatype OrderItem = OrderItem(productId: ProductId, quantity: int, unitPrice: int)

  /** The body of `POST /orders` once it has passed the schema check. */
  datatype OrderRequest = OrderRequest(userId: UserId, orderItems: seq<OrderItem>)

  /** An order as the store keeps it. */
  datatype Order = Order(id: OrderId, userId: UserId, orderItems: seq<OrderItem>)

  /** An order as `GET /orders/:id` sends it, with its computed total. */
  datatype OrderWithTotal = OrderWithTotal(order: Order, total: int)

  // ---------------------------------------------------------------------------
  // The placement rule
  // ---------------------------------------------------------------------------

  /** `orderItems.map(item => item.productId)`: one id per item, repeats kept. */
  function ProductIds(items: seq<OrderItem>): (ids: seq<ProductId>)
    ensures |ids| == |items|
    ensures forall i :: 0 <= i < |items| ==> ids[i] == items[i].productId
  {
    seq(|items|, i requires 0 <= i < |items| => items[i].productId)
  }

  /** The index `orderItems.find` stops at: the first item naming `id`. */
  function FindItem(items: seq<OrderItem>, id: ProductId): (i: nat)
    requires id in ProductIds(items)
    ensures i < |items| && items[i].productId == id
    ensures forall j :: 0 <= j < i ==> items[j].productId != id
  {
    if items[0].productId == id then 0
    else
      assert ProductIds(items[1..]) == ProductIds(items)[1..];
      1 + FindItem(items[1..], id)
  }

  /** `getQuantity`: the quantity of the first item naming `id`. */
  function GetQuantity(items: seq<OrderItem>, id: ProductId): (q: int)
    requires id in ProductIds(items)
    ensures exists i :: 0 <= i < |items| && items[i].productId == id && FirstOccurrence(items, i) &&
                        items[i].quantity == q
  {
    items[FindItem(items, id)].quantity
  }

  /** Item `i` is the first one naming its product. */
  ghost predicate FirstOccurrence(items: seq<OrderItem>, i: int)
    requires 0 <= i < |items|
  {
    forall j :: 0 <= j < i ==> items[j].productId != items[i].productId
  }

  /**
   * `isSufficientStock`: `findMany` fetches the products of the store whose id is
   * among the requested ones, and `every` compares each with `getQuantity`.
   * Requested products missing from the store are not fetched, so not compared.
   */
  predicate IsSufficientStock(stock: map<ProductId, int>, items: seq<OrderItem>)
    ensures IsSufficientStock(stock, items) <==>
            forall i :: 0 <= i < |items| && items[i].productId in stock ==>
              stock[items[i].productId] >= GetQuantity(items, items[i].productId)
  {
    forall id :: id in stock && id in ProductIds(items) ==> stock[id] >= GetQuantity(items, id)
  }

  /** Every product an item names is in the store. */
  predicate ProductsExist(stock: map<ProductId, int>, items: seq<OrderItem>)
  {
    forall id :: id in ProductIds(items) ==> id in stock
  }

  /** What DecrementEach needs: every id is in the store and named by some item. */
  ghost predicate Decrementable(m: map<ProductId, int>, ids: seq<ProductId>, items: seq<OrderItem>)
  {
    forall j :: 0 <= j < |ids| ==> ids[j] in m && ids[j] in ProductIds(items)
  }

  /**
   * The stock after the update queries for `ids` have run in order, each
   * subtracting `getQuantity` of its id.
   */
  ghost function DecrementEach(m: map<ProductId, int>, ids: seq<ProductId>, items: seq<OrderItem>): (r: map<ProductId, int>)
    requires Decrementable(m, ids, items)
    ensures r.Keys == m.Keys
  {
    if ids == [] then m
    else
      var before := DecrementEach(m, ids[..|ids| - 1], items);
      var id := ids[|ids| - 1];
      before[id := before[id] - GetQuantity(items, id)]
  }

  /** The stock after a successful placement: one decrement per element of `productIds`. */
  ghost function Decrements(m: map<ProductId, int>, items: seq<OrderItem>): (r: map<ProductId, int>)
    requires ProductsExist(m, items)
    ensures r.Keys == m.Keys
  {
    DecrementEach(m, ProductIds(items), items)
  }

  /** How often `id` occurs in `ids`. */
  function Occurrences(ids: seq<ProductId>, id: ProductId): (c: nat)
    ensures c == 0 <==> id !in ids
    ensures c <= |ids|
  {
    if ids == [] then 0
    else
      assert ids == ids[..|ids| - 1] + [ids[|ids| - 1]];
      Occurrences(ids[..|ids| - 1], id) + (if ids[|ids| - 1] == id then 1 else 0)
  }

  ghost predicate Distinct(ids: seq<ProductId>)
  {
    forall a, b :: 0 <= a < b < |ids| ==> ids[a] != ids[b]
  }

  // ---------------------------------------------------------------------------
  // Properties of the stock check
  // ---------------------------------------------------------------------------

  /** The first occurrence of a product is the one `find` returns. */
  lemma FindItemIsFirstOccurrence(items: seq<OrderItem>, i: int)
    requires 0 <= i < |items| && FirstOccurrence(items, i)
    ensures items[i].productId in ProductIds(items)
    ensures FindItem(items, items[i].productId) == i
  {
  }

  /**
   * The check compares each product in the store once, against the quantity of
   * the first item naming it; later items for the same product are not compared.
   */
  lemma CheckComparesFirstOccurrences(stock: map<ProductId, int>, items: seq<OrderItem>)
    ensures IsSufficientStock(stock, items) <==>
            forall i :: 0 <= i < |items| && items[i].productId in stock && FirstOccurrence(items, i) ==>
              stock[items[i].productId] >= items[i].quantity
  {
  }

  /** Items appended after the ones already present do not change where `find` stops. */
  lemma GetQuantityOfPrefix(items: seq<OrderItem>, extra: seq<OrderItem>, id: ProductId)
    requires id in ProductIds(items)
    ensures id in ProductIds(items + extra)
    ensures GetQuantity(items + extra, id) == GetQuantity(items, id)
  {
    var i := FindItem(items, id);
    var all := items + extra;
    assert all[i] == items[i];
    var allIds := ProductIds(all);
    assert allIds[i] == id;
    var k := FindItem(all, id);
    assert forall j :: 0 <= j < |items| ==> all[j] == items[j];
    assert k == i;
  }

  /** Repeating a product that is already in the order never changes the check. */
  lemma RepeatedItemNotChecked(stock: map<ProductId, int>, items: seq<OrderItem>, item: OrderItem)
    requires item.productId in ProductIds(items)
    ensures IsSufficientStock(stock, items + [item]) == IsSufficientStock(stock, items)
  {
    IgnoredItemsLeaveCheck(stock, items, [item]);
  }

  /** Products absent from the store are skipped: appending items for them never changes the check. */
  lemma AbsentProductsSkipped(stock: map<ProductId, int>, items: seq<OrderItem>, extra: seq<OrderItem>)
    requires forall i :: 0 <= i < |extra| ==> extra[i].productId !in stock
    ensures IsSufficientStock(stock, items + extra) == IsSufficientStock(stock, items)
  {
    IgnoredItemsLeaveCheck(stock, items, extra);
  }

  /** An order for products none of which is in the store always passes the check. */
  lemma AbsentProductsPassCheck(stock: map<ProductId, int>, items: seq<OrderItem>)
    requires forall i :: 0 <= i < |items| ==> items[i].productId !in stock
    ensures IsSufficientStock(stock, items)
  {
    AbsentProductsSkipped(stock, [], items);
    assert [] + items == items;
  }

  /** Appended items whose product is absent from the store or already requested leave the check as it was. */
  lemma IgnoredItemsLeaveCheck(stock: map<ProductId, int>, items: seq<OrderItem>, extra: seq<OrderItem>)
    requires forall i :: 0 <= i < |extra| ==> extra[i].productId !in stock || extra[i].productId in ProductIds(items)
    ensures IsSufficientStock(stock, items + extra) == IsSufficientStock(stock, items)
  {
    var ids, all := ProductIds(items), ProductIds(items + extra);
    forall id | id in stock
      ensures id in all <==> id in ids
      ensures id in ids ==> GetQuantity(items + extra, id) == GetQuantity(items, id)
    {
      if id in ids {
        GetQuantityOfPrefix(items, extra, id);
      }
      if id in all {
        var k :| 0 <= k < |all| && all[k] == id;
        if k >= |items| {
          assert extra[k - |items|] == (items + extra)[k];
        } else {
          assert ids[k] == id;
        }
      }
    }
  }

  // ---------------------------------------------------------------------------
  // Properties of the stock decrements
  // ---------------------------------------------------------------------------

  /** The update queries leave every product they do not name as it was. */
  lemma {:induction false} DecrementEachSkips(m: map<ProductId, int>, ids: seq<ProductId>, items: seq<OrderItem>, id: ProductId)
    requires Decrementable(m, ids, items)
    requires id in m && id !in ids
    ensures DecrementEach(m, ids, items)[id] == m[id]
  {
    if ids != [] {
      var prefix := ids[..|ids| - 1];
      assert id !in prefix by {
        assert forall j :: 0 <= j < |prefix| ==> prefix[j] == ids[j];
      }
      DecrementEachSkips(m, prefix, items, id);
    }
  }

  /** The last update query subtracts `getQuantity` from its own product and from no other. */
  lemma DecrementEachLast(m: map<ProductId, int>, ids: seq<ProductId>, items: seq<OrderItem>, id: ProductId)
    requires ids != [] && Decrementable(m, ids, items)
    requires id in m && id in ProductIds(items)
    ensures DecrementEach(m, ids, items)[id] ==
            DecrementEach(m, ids[..|ids| - 1], items)[id] - (if ids[|ids| - 1] == id then GetQuantity(items, id) else 0)
    ensures Occurrences(ids, id) == Occurrences(ids[..|ids| - 1], id) + (if ids[|ids| - 1] == id then 1 else 0)
  {
  }

  /** Each id is decremented once per time it occurs, each time by `getQuantity`. */
  lemma {:induction false} DecrementEachCounts(m: map<ProductId, int>, ids: seq<ProductId>, items: seq<OrderItem>, id: ProductId)
    requires Decrementable(m, ids, items)
    requires id in m && id in ProductIds(items)
    ensures DecrementEach(m, ids, items)[id] == m[id] - Occurrences(ids, id) * GetQuantity(items, id)
  {
    if ids != [] {
      var prefix := ids[..|ids| - 1];
      DecrementEachCounts(m, prefix, items, id);
      DecrementEachLast(m, ids, items, id);
      var q, o := GetQuantity(items, id), Occurrences(prefix, id);
      var c := if ids[|ids| - 1] == id then 1 else 0;
      assert m[id] - o * q - c * q == m[id] - (o + c) * q;
    }
  }

  /**
   * The update queries of the transaction, run one after another on a copy of
   * the stock: one decrement by `getQuantity` per element of `productIds`.
   */
  method RunDecrements(stock: map<ProductId, int>, items: seq<OrderItem>) returns (next: map<ProductId, int>)
    requires ProductsExist(stock, items)
    ensures next == Decrements(stock, items)
  {
    var productIds := ProductIds(items);
    next := stock;
    var i := 0;
    while i < |productIds|
      invariant 0 <= i <= |productIds|
      invariant Decrementable(stock, productIds[..i], items)
      invariant next == DecrementEach(stock, productIds[..i], items)
    {
      var id := productIds[i];
      assert productIds[..i + 1][..i] == productIds[..i];
      next := next[id := next[id] - GetQuantity(items, id)];
      i := i + 1;
    }
    assert productIds[..|productIds|] == productIds;
  }

  /** Products that no item names keep their stock. */
  lemma UnreferencedUnchanged(m: map<ProductId, int>, items: seq<OrderItem>, id: ProductId)
    requires ProductsExist(m, items)
    requires id in m && id !in ProductIds(items)
    ensures Decrements(m, items)[id] == m[id]
  {
    DecrementEachSkips(m, ProductIds(items), items, id);
  }

  /**
   * A product named by k items loses k times the quantity of its first item,
   * whatever the quantities of the other k - 1 items say.
   */
  lemma RepeatedProductDecrementedPerItem(m: map<ProductId, int>, items: seq<OrderItem>, id: ProductId)
    requires ProductsExist(m, items)
    requires id in ProductIds(items)
    ensures Decrements(m, items)[id] == m[id] - Occurrences(ProductIds(items), id) * GetQuantity(items, id)
  {
    DecrementEachCounts(m, ProductIds(items), items, id);
  }

  lemma {:induction false} OccursOnceWhenDistinct(ids: seq<ProductId>, i: int)
    requires Distinct(ids) && 0 <= i < |ids|
    ensures Occurrences(ids, ids[i]) == 1
  {
    var n := |ids|;
    var prefix := ids[..n - 1];
    if i == n - 1 {
      assert forall j :: 0 <= j < |prefix| ==> prefix[j] != ids[i];
    } else {
      OccursOnceWhenDistinct(prefix, i);
    }
  }

  /**
   * With no product named twice, each named product loses exactly its item's
   * quantity, and if the check passed its stock is not negative afterwards.
   */
  lemma DistinctItemDecrementedByItsQuantity(m: map<ProductId, int>, items: seq<OrderItem>, i: int)
    requires ProductsExist(m, items)
    requires Distinct(ProductIds(items))
    requires 0 <= i < |items|
    ensures items[i].productId in m
    ensures Decrements(m, items)[items[i].productId] == m[items[i].productId] - items[i].quantity
    ensures IsSufficientStock(m, items) ==> Decrements(m, items)[items[i].productId] >= 0
  {
    var ids := ProductIds(items);
    var id := items[i].productId;
    assert ids[i] == id;
    assert FirstOccurrence(items, i) by {
      forall j | 0 <= j < i ensures items[j].productId != id {
        assert ids[j] == items[j].productId;
      }
    }
    FindItemIsFirstOccurrence(items, i);
    OccursOnceWhenDistinct(ids, i);
    RepeatedProductDecrementedPerItem(m, items, id);
  }

  /** With no product named twice, a placement that passed the check leaves no stock negative. */
  lemma DistinctPlacementKeepsStockNonNegative(m: map<ProductId, int>, items: seq<OrderItem>)
    requires ProductsExist(m, items) && Distinct(ProductIds(items)) && IsSufficientStock(m, items)
    requires forall id :: id in m ==> m[id] >= 0
    ensures forall id :: id in Decrements(m, items) ==> Decrements(m, items)[id] >= 0
  {
    var ids := ProductIds(items);
    forall id | id in Decrements(m, items) ensures Decrements(m, items)[id] >= 0 {
      if id in ids {
        var i :| 0 <= i < |ids| && ids[i] == id;
        DistinctItemDecrementedByItsQuantity(m, items, i);
      } else {
        UnreferencedUnchanged(m, items, id);
      }
    }
  }

  /** A product listed twice passes the check against its first quantity and is then overdrawn. */
  lemma RepeatedProductCanOverdraw()
    ensures var stock := map["p" := 3];
            var items := [OrderItem("p", 2, 1), OrderItem("p", 2, 1)];
            ProductsExist(stock, items) && IsSufficientStock(stock, items) && Decrements(stock, items)["p"] == -1
  {
    var stock := map["p" := 3];
    var items := [OrderItem("p", 2, 1), OrderItem("p", 2, 1)];
    assert ProductIds(items) == ["p", "p"];
    assert GetQuantity(items, "p") == 2;
    assert Occurrences(["p", "p"], "p") == 2 by {
      assert ["p", "p"][..1] == ["p"];
      assert ["p"][..0] == [];
    }
    RepeatedProductDecrementedPerItem(stock, items, "p");
  }

  // ---------------------------------------------------------------------------
  // The computed total of GET /orders/:id
  // ---------------------------------------------------------------------------

  /** The sum of quantity * unitPrice over the items. */
  function Total(items: seq<OrderItem>): (t: int)
    ensures items == [] ==> t == 0
    ensures (forall i :: 0 <= i < |items| ==> items[i].quantity >= 0 && items[i].unitPrice >= 0) ==> t >= 0
  {
    if items == [] then 0
    else Total(items[..|items| - 1]) + items[|items| - 1].quantity * items[|items| - 1].unitPrice
  }

  /** The total of a concatenation is the sum of the totals. */
  lemma {:induction false} TotalConcat(a: seq<OrderItem>, b: seq<OrderItem>)
    ensures Total(a + b) == Total(a) + Total(b)
  {
    if b == [] {
      assert a + b == a;
    } else {
      var front := b[..|b| - 1];
      assert (a + b)[..|a + b| - 1] == a + front;
      TotalConcat(a, front);
    }
  }

  /** The total adds each item's amount once, whatever its position. */
  lemma TotalFirstItem(item: OrderItem, rest: seq<OrderItem>)
    ensures Total([item] + rest) == item.quantity * item.unitPrice + Total(rest)
  {
    TotalConcat([item], rest);
    assert [item][..0] == [];
  }

  /** Items (2 x 10) and (1 x 5) total 25. */
  lemma TotalExample(p: ProductId, q: ProductId)
    ensures Total([OrderItem(p, 2, 10), OrderItem(q, 1, 5)]) == 25
  {
    var items := [OrderItem(p, 2, 10), OrderItem(q, 1, 5)];
    assert items[..1] == [OrderItem(p, 2, 10)];
    assert items[..1][..0] == [];
    assert Total(items[..1]) == 20;
    assert Total(items) == Total(items[..1]) + 5;
  }

  /** The `forEach` loop of `GET /orders/:id` that adds up `total`. */
  method OrderTotal(items: seq<OrderItem>) returns (total: int)
    ensures total == Total(items)
    ensures items == [] ==> total == 0
  {
    total := 0;
    var i := 0;
    while i < |items|
      invariant 0 <= i <= |items|
      invariant total == Total(items[..i])
    {
      assert items[..i + 1][..i] == items[..i];
      total := total + items[i].quantity * items[i].unitPrice;
      i := i + 1;
    }
    assert items[..|items|] == items;
  }
}
