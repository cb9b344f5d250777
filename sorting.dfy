/**
 * The `orderBy` switches of `GET /users` and `GET /products`: each maps the
 * `order` query-string parameter to a sort field and direction, with a default
 * for every value it does not recognise.
 */
module Sorting {
  import opened Wrappers

  datatype Field = CreatedAt | Price
  datatype Direction = Asc | Desc
  datatype OrderBy = OrderBy(field: Field, direction: Direction)

  /** Users are listed by creation time; only "oldest" lists them oldest first. */
  function UserOrderBy(order: Option<string>): (r: OrderBy)
    ensures r.field == CreatedAt
    ensures r.direction == Asc <==> order == Some("oldest")
  {
    // the destructuring default `order = 'newest'` applies when the parameter is missing
    var o := if order.Some? then order.value else "newest";
    match o
    case "oldest" => OrderBy(CreatedAt, Asc)
    case _ => OrderBy(CreatedAt, Desc)
  }

  /** Products: price ascending, price descending, oldest first, or newest first by default. */
  function ProductOrderBy(order: Option<string>): (r: OrderBy)
    ensures r == OrderBy(Price, Asc) <==> order == Some("priceLowest")
    ensures r == OrderBy(Price, Desc) <==> order == Some("priceHighest")
    ensures r == OrderBy(CreatedAt, Asc) <==> order == Some("oldest")
    ensures r == OrderBy(CreatedAt, Desc) <==>
              order !in {Some("priceLowest"), Some("priceHighest"), Some("oldest")}
  {
    if order.None? then OrderBy(CreatedAt, Desc)
    else
      match order.value
      case "priceLowest" => OrderBy(Price, Asc)
      case "priceHighest" => OrderBy(Price, Desc)
      case "oldest" => OrderBy(CreatedAt, Asc)
      case _ => OrderBy(CreatedAt, Desc)
  }

  /** The keyword a client sends to get a given product ordering. */
  function ProductKeyword(ob: OrderBy): (k: string)
  {
    match ob
    case OrderBy(Price, Asc) => "priceLowest"
    case OrderBy(Price, Desc) => "priceHighest"
    case OrderBy(CreatedAt, Asc) => "oldest"
    case OrderBy(CreatedAt, Desc) => "newest"
  }

  /** Every product ordering is reachable, by exactly the keyword ProductKeyword names. */
  lemma ProductKeywordRoundTrip(ob: OrderBy)
    ensures ProductOrderBy(Some(ProductKeyword(ob))) == ob
  {
  }

  /** Where no price keyword is given, products are ordered exactly as users are. */
  lemma ProductsDefaultLikeUsers(order: Option<string>)
    requires order != Some("priceLowest") && order != Some("priceHighest")
    ensures ProductOrderBy(order) == UserOrderBy(order)
  {
  }
}
