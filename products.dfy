/**
 * The catalog query route (`GET /api/products`): query parameters become a
 * page query (filter, sort, skip, take) and a count query with the same
 * filter; the answer echoes the page and the limit and adds `totalPages`.
 * The two queries are run by the database; their results are inputs here.
 */
module Products {
  import opened Wrappers

  /** The query parameters, already parsed: `None` stands for an absent or empty parameter. */
  datatype Params = Params(page: Option<int>, limit: Option<int>, category: Option<string>, sort: Option<string>)

  /** The `where` clause: no filter, or products having a category with this slug. */
  datatype Where = AllProducts | InCategory(slug: string)

  datatype SortField = PriceCents | CreatedAt
  datatype Direction = Asc | Desc
  datatype OrderBy = OrderBy(field: SortField, direction: Direction)

  datatype PageQuery = PageQuery(where: Where, take: int, skip: int, orderBy: OrderBy)

  /** The two queries the route sends in one `$transaction`. */
  datatype Plan = Plan(page: int, limit: int, findMany: PageQuery, countWhere: Where)

  /** The JSON answer; `totalPages` is `None` where `Math.ceil(total / limit)` is not finite. */
  datatype Answer<P> =
    | Page(items: seq<P>, total: nat, page: int, limit: int, totalPages: Option<int>)
    | Failure(status: int, message: string)

  const DefaultPage := 1
  const DefaultLimit := 12

  /** The filter is built by assigning `where.categories` when `category` is truthy. */
  method BuildWhere(category: Option<string>) returns (w: Where)
    ensures w.InCategory? <==> category.Some? && category.value != ""
    ensures w.InCategory? ==> w.slug == category.value
  {
    w := AllProducts;
    if category.Some? && category.value != "" {
      w := InCategory(category.value);
    }
  }

  /** The sort is built by assigning one field of `orderBy` in an if/else chain. */
  method BuildOrderBy(sort: Option<string>) returns (o: OrderBy)
    ensures sort == Some("price-asc") ==> o == OrderBy(PriceCents, Asc)
    ensures sort == Some("price-desc") ==> o == OrderBy(PriceCents, Desc)
    ensures sort != Some("price-asc") && sort != Some("price-desc") ==> o == OrderBy(CreatedAt, Desc)
  {
    if sort == Some("price-asc") {
      o := OrderBy(PriceCents, Asc);
    } else if sort == Some("price-desc") {
      o := OrderBy(PriceCents, Desc);
    } else {
      o := OrderBy(CreatedAt, Desc);
    }
  }

  method PlanQuery(p: Params) returns (plan: Plan)
    ensures plan.page == (if p.page.Some? then p.page.value else DefaultPage)
    ensures plan.limit == (if p.limit.Some? then p.limit.value else DefaultLimit)
    ensures plan.findMany.skip == (plan.page - 1) * plan.limit
    ensures plan.findMany.take == plan.limit
    ensures plan.countWhere == plan.findMany.where
    ensures plan.findMany.where.InCategory? <==> p.category.Some? && p.category.value != ""
    ensures plan.findMany.where.InCategory? ==> plan.findMany.where.slug == p.category.value
    ensures p.sort == Some("price-asc") ==> plan.findMany.orderBy == OrderBy(PriceCents, Asc)
    ensures p.sort == Some("price-desc") ==> plan.findMany.orderBy == OrderBy(PriceCents, Desc)
    ensures p.sort != Some("price-asc") && p.sort != Some("price-desc") ==>
      plan.findMany.orderBy == OrderBy(CreatedAt, Desc)
  {
    var page := if p.page.Some? then p.page.value else DefaultPage;
    var limit := if p.limit.Some? then p.limit.value else DefaultLimit;
    var skip := (page - 1) * limit;
    var where := BuildWhere(p.category);
    var orderBy := BuildOrderBy(p.sort);
    plan := Plan(page, limit, PageQuery(where, limit, skip, orderBy), where);
  }

  /** `Math.ceil(total / limit)` for a count `total`: the ceiling for a positive
      limit, a non-positive value for a negative one, not finite for 0. */
  function TotalPages(total: nat, limit: int): (r: Option<int>)
    ensures limit > 0 ==> r.Some? && (r.value - 1) * limit < total <= r.value * limit
    ensures limit < 0 ==> r.Some? && r.value <= 0 && r.value * limit <= total < (r.value - 1) * limit
    ensures limit == 0 <==> r.None?
  {
    if limit > 0 then Some(CeilDiv(total, limit))
    else if limit < 0 then Some(-(total / -limit))
    else None
  }

  /** Integer ceiling division. */
  function CeilDiv(n: nat, d: int): (q: nat)
    requires d > 0
    ensures (q - 1) * d < n <= q * d
  {
    var q := (n + d - 1) / d;
    assert q * d <= n + d - 1 < (q + 1) * d;
    q
  }

  /** The answer for the query results (`None` when the database throws). */
  function Respond<P>(plan: Plan, result: Option<(seq<P>, nat)>): (a: Answer<P>)
    ensures result.None? <==> a.Failure?
    ensures a.Failure? ==> a.status == 500 && a.message == "Une erreur interne est survenue."
    ensures a.Page? ==> (plan.limit == 0 <==> a.totalPages.None?)
    ensures a.Page? && plan.limit < 0 ==> a.totalPages.Some? && a.totalPages.value <= 0
    ensures a.Page? ==>
      a.items == result.value.0 && a.total == result.value.1 &&
      a.page == plan.page && a.limit == plan.limit &&
      (plan.limit > 0 ==>
         a.totalPages.Some? && (a.totalPages.value - 1) * plan.limit < a.total <= a.totalPages.value * plan.limit)
  {
    match result
    case None => Failure(500, "Une erreur interne est survenue.")
    case Some((items, total)) => Page(items, total, plan.page, plan.limit, TotalPages(total, plan.limit))
  }

  /** With no parameters: page 1 of 12, newest first, unfiltered. */
  method DefaultPlan() returns (plan: Plan)
    ensures plan == Plan(1, 12, PageQuery(AllProducts, 12, 0, OrderBy(CreatedAt, Desc)), AllProducts)
  {
    plan := PlanQuery(Params(None, None, None, None));
  }
}
