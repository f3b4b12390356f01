/** The date-range filter of the entry lists and the query parameters the
    pages derive from it. A filter is one of "lifetime", "today",
    "thisMonth", "thisYear" and "custom"; only "custom" uses the two dates. */
module Queries {

  /** Request or URL parameters, name to value. */
  type Params = map<string, string>

  /** `searchParams.get(k) || ""`. */
  function Get(q: Params, k: string): (v: string)
    ensures k !in q ==> v == ""
  {
    if k in q then q[k] else ""
  }

  /** The filter state of a page. An empty date is an unset date. */
  datatype RangeFilter = RangeFilter(filter: string, startDate: string, endDate: string)

  /** A custom range with both ends chosen. */
  predicate CompleteCustom(f: RangeFilter)
  {
    f.filter == "custom" && f.startDate != "" && f.endDate != ""
  }

  /** The `enabled` flag of the staff dashboard's and the entries page's
      query: a custom range waits until both dates are set. */
  predicate RangeEnabled(f: RangeFilter)
  {
    !(f.filter == "custom" && (f.startDate == "" || f.endDate == ""))
  }

  /** The parameters of those queries: the filter always, the two dates
      only for a complete custom range. */
  function RangeParams(f: RangeFilter): (ps: Params)
    ensures "filter" in ps && ps["filter"] == f.filter
    ensures "startDate" in ps <==> CompleteCustom(f)
    ensures "endDate" in ps <==> CompleteCustom(f)
    ensures CompleteCustom(f) ==> ps["startDate"] == f.startDate && ps["endDate"] == f.endDate
    ensures forall k | k in ps :: k == "filter" || k == "startDate" || k == "endDate"
  {
    var base := map["filter" := f.filter];
    if CompleteCustom(f) then base["startDate" := f.startDate]["endDate" := f.endDate] else base
  }

  /** An enabled query on a custom range always carries both dates; no
      other filter ever sends a date. */
  lemma RangeEnabledSendsDates(f: RangeFilter)
    ensures RangeEnabled(f) && f.filter == "custom" <==> "startDate" in RangeParams(f)
    ensures f.filter != "custom" ==> RangeEnabled(f) && "startDate" !in RangeParams(f) && "endDate" !in RangeParams(f)
  {
  }

  /** Choosing a filter (a button on the staff dashboard, the select on the
      entries page) sets it and clears both dates. */
  function SelectFilter(f: RangeFilter, v: string): (f': RangeFilter)
    ensures f'.filter == v && f'.startDate == "" && f'.endDate == ""
  {
    RangeFilter(v, "", "")
  }

  /** Right after choosing "custom" the query is disabled; after choosing
      any other filter it runs with the filter alone. */
  lemma SelectFilterQuery(f: RangeFilter, v: string)
    ensures RangeEnabled(SelectFilter(f, v)) <==> v != "custom"
    ensures RangeParams(SelectFilter(f, v)) == map["filter" := v]
  {
  }

  // ----- the summary page ---------------------------------------------------------

  /** The summary page reads its filter from the URL; a missing or empty
      filter is "lifetime", a missing date is unset. */
  function SummaryFilter(q: Params): (f: RangeFilter)
    ensures f.filter != ""
    ensures Get(q, "filter") != "" ==> f.filter == q["filter"]
  {
    var v := Get(q, "filter");
    RangeFilter(if v == "" then "lifetime" else v, Get(q, "startDate"), Get(q, "endDate"))
  }

  /** The summary query's parameters: no filter for "lifetime", the dates
      only for a complete custom range. */
  function SummaryParams(f: RangeFilter): (ps: Params)
    ensures "filter" in ps <==> f.filter != "lifetime"
    ensures "filter" in ps ==> ps["filter"] == f.filter
    ensures "startDate" in ps <==> CompleteCustom(f)
    ensures "endDate" in ps <==> CompleteCustom(f)
    ensures CompleteCustom(f) ==> ps["startDate"] == f.startDate && ps["endDate"] == f.endDate
    ensures forall k | k in ps :: k == "filter" || k == "startDate" || k == "endDate"
  {
    var base: Params := if f.filter != "lifetime" then map["filter" := f.filter] else map[];
    if CompleteCustom(f) then base["startDate" := f.startDate]["endDate" := f.endDate] else base
  }

  /** A summary URL without a filter asks for everything: no parameter at
      all is sent, whatever dates the URL carries. */
  lemma SummaryLifetimeSendsNothing(q: Params)
    requires Get(q, "filter") == "" || Get(q, "filter") == "lifetime"
    ensures SummaryParams(SummaryFilter(q)) == map[]
  {
  }
}
