/** The customer dashboard helper's two builders: the invoice date window
    with the optional free-good predicate, and the new-customer window on
    the customer's creation time. Neither has id filters or joins. */
module CustomerDashboard {
  import opened Text
  import opened Sql
  import opened QueryParts
  import opened FilterHelper

  const CreatedRange := BetweenNamed("ac.created_at", "from_date", "to_date")

  /** build_query_parts: (where_fragments, params). */
  method BuildQueryParts(f: Filters) returns (parts: seq<Pred>, params: map<string, Value>)
    ensures parts == Head(f) && params == DateParams(f)
  {
    parts, params := [], map[];
    parts := parts + [DateRange];
    params := params["from_date" := Text(f.fromDate)];
    params := params["to_date" := Text(f.toDate)];
    if f.displayQuantity != "" && Lower(f.displayQuantity) == "without_free_good" {
      parts := parts + [NoFreeGood];
    }
  }

  /** new_customer_date: (where_date, params). */
  method NewCustomerDate(f: Filters) returns (parts: seq<Pred>, params: map<string, Value>)
    ensures parts == [CreatedRange] && params == DateParams(f)
  {
    parts, params := [], map[];
    parts := parts + [CreatedRange];
    params := params["from_date" := Text(f.fromDate)];
    params := params["to_date" := Text(f.toDate)];
  }

  /** The dashboard's fragments: the date window first, then `id.item_total
      <> 0` exactly for without_free_good in any case, and nothing else;
      the params hold only the two dates, and bind every name used. */
  lemma QueryShape(f: Filters)
    ensures var parts, params := Head(f), DateParams(f);
            && parts[0] == DateRange
            && (|parts| == 2 <==> WithoutFreeGoodAnyCase(f.displayQuantity))
            && (|parts| == 2 ==> parts[1] == NoFreeGood)
            && |parts| <= 2
            && params.Keys == {"from_date", "to_date"}
            && AllBound(parts, params.Keys)
  {
    HeadBound(f);
  }

  /** The new-customer window binds exactly the two dates it names. */
  lemma NewCustomerShape(f: Filters)
    ensures Names(CreatedRange) == DateParams(f).Keys
    ensures AllBound([CreatedRange], DateParams(f).Keys)
  {
  }
}
