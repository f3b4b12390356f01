/** The owner's request list: the filter and page state kept in the URL,
    how each control rewrites it, the previous/next gating, and what each
    row offers. */
module RequestsPage {
  import opened Values
  import opened Ledger
  import opened Queries

  /** The filter state the page reads from its URL. `status` is "ALL" or a
      status name. */
  datatype Filters = Filters(status: string, page: int, startDate: string, endDate: string)

  /** Reading the URL: a missing or empty status is "ALL"; a page that is
      missing, empty, zero or not a number is 1; a missing date is unset. */
  function ReadFilters(q: Params): (f: Filters)
    ensures f.status == (if Get(q, "status") == "" then "ALL" else Get(q, "status"))
    ensures f.page != 0
    ensures JsNumber(Get(q, "page")).None? ==> f.page == 1
    ensures Get(q, "page") == "" ==> f.page == 1
    ensures JsNumber(Get(q, "page")).Some? && JsNumber(Get(q, "page")).value != 0
      ==> f.page == JsNumber(Get(q, "page")).value
    ensures f.startDate == Get(q, "startDate") && f.endDate == Get(q, "endDate")
  {
    var status := Get(q, "status");
    var n := JsNumber(Get(q, "page"));
    Filters(if status == "" then "ALL" else status,
      if n.Some? && n.value != 0 then n.value else 1,
      Get(q, "startDate"), Get(q, "endDate"))
  }

  /** A page parameter holding a character that is neither a digit nor a
      leading minus sign reads as page 1, and so does a bare "-". */
  lemma NonNumericPageIsOne(q: Params, i: nat)
    requires i < |Get(q, "page")| && !IsDigit(Get(q, "page")[i])
    requires i > 0 || Get(q, "page")[i] != '-' || |Get(q, "page")| == 1
    ensures ReadFilters(q).page == 1
  {
    var p := Get(q, "page");
    assert !AllDigits(p);
    if |p| > 1 && p[0] == '-' {
      assert i > 0;
      assert !IsDigit(p[1..][i - 1]);
    }
  }

  /** A page parameter of digits with a non-zero value reads as that page;
      one of only zeros reads as page 1. */
  lemma DigitPageIsRead(q: Params)
    requires AllDigits(Get(q, "page"))
    ensures ReadFilters(q).page == if DigitsValue(Get(q, "page")) != 0 then DigitsValue(Get(q, "page")) else 1
  {
  }

  /** The request parameters of the list query: the four filter values and
      a page size of 5. */
  function RequestParams(f: Filters): (ps: Params)
    ensures ps.Keys == {"status", "page", "startDate", "endDate", "limit"}
    ensures ps["status"] == f.status && ps["page"] == IntText(f.page) && ps["limit"] == "5"
    ensures ps["startDate"] == f.startDate && ps["endDate"] == f.endDate
  {
    map["status" := f.status, "page" := IntText(f.page), "startDate" := f.startDate,
      "endDate" := f.endDate, "limit" := "5"]
  }

  /** The keys an `updateFilters` call overrides. */
  datatype Overrides = Overrides(status: Option<string>, page: Option<int>, startDate: Option<string>, endDate: Option<string>)

  function Pick<T>(o: Option<T>, d: T): T
  {
    if o.Some? then o.value else d
  }

  /** `updateFilters(newFilters)`: the new URL holds every current value,
      with the overridden keys replaced. */
  function UpdateFilters(f: Filters, o: Overrides): (q: Params)
    ensures q.Keys == {"status", "page", "startDate", "endDate"}
    ensures q["status"] == Pick(o.status, f.status)
    ensures q["page"] == IntText(Pick(o.page, f.page))
    ensures q["startDate"] == Pick(o.startDate, f.startDate)
    ensures q["endDate"] == Pick(o.endDate, f.endDate)
  {
    map["status" := Pick(o.status, f.status), "page" := IntText(Pick(o.page, f.page)),
      "startDate" := Pick(o.startDate, f.startDate), "endDate" := Pick(o.endDate, f.endDate)]
  }

  /** Reading back the URL that `updateFilters` writes gives the overridden
      values and keeps every other one, as long as the status is not empty
      and the page not zero (the values the defaults would replace). */
  lemma UpdateFiltersRoundTrip(f: Filters, o: Overrides)
    requires Pick(o.status, f.status) != "" && Pick(o.page, f.page) != 0
    ensures ReadFilters(UpdateFilters(f, o))
      == Filters(Pick(o.status, f.status), Pick(o.page, f.page), Pick(o.startDate, f.startDate), Pick(o.endDate, f.endDate))
  {
    JsNumberOfIntText(Pick(o.page, f.page));
  }

  /** The state the page is in once the URL is rewritten. */
  function Navigate(f: Filters, o: Overrides): Filters
  {
    ReadFilters(UpdateFilters(f, o))
  }

  /** Choosing a status: the status is set, the page goes back to 1, the
      dates stay. */
  lemma ChangeStatusResetsPage(q: Params, v: string)
    requires v != ""
    ensures Navigate(ReadFilters(q), Overrides(Some(v), Some(1), None, None))
      == ReadFilters(q).(status := v, page := 1)
  {
    UpdateFiltersRoundTrip(ReadFilters(q), Overrides(Some(v), Some(1), None, None));
  }

  /** Choosing either date: that date is set, the page goes back to 1,
      everything else stays. An empty date reads back as unset. */
  lemma ChangeDatesResetPage(q: Params, d: string)
    ensures Navigate(ReadFilters(q), Overrides(None, Some(1), Some(d), None))
      == ReadFilters(q).(startDate := d, page := 1)
    ensures Navigate(ReadFilters(q), Overrides(None, Some(1), None, Some(d)))
      == ReadFilters(q).(endDate := d, page := 1)
  {
    UpdateFiltersRoundTrip(ReadFilters(q), Overrides(None, Some(1), Some(d), None));
    UpdateFiltersRoundTrip(ReadFilters(q), Overrides(None, Some(1), None, Some(d)));
  }

  // ----- pagination -----------------------------------------------------------------

  /** `disabled={page === 1}`: Prev is disabled exactly where pressing it
      would not lead to a lower page. */
  predicate PrevDisabled(f: Filters)
    ensures PrevDisabled(f) <==> Prev(f).page >= f.page
  {
    f.page == 1
  }

  /** `disabled={page === data?.pages}`: never while nothing is loaded, and
      otherwise only on the last page. */
  predicate NextDisabled(f: Filters, pages: Option<int>)
    ensures pages.None? ==> !NextDisabled(f, pages)
    ensures NextDisabled(f, pages) ==> pages.value == f.page
  {
    pages == Some(f.page)
  }

  /** Prev: `updateFilters({ page: page - 1 })`, read back. Page 0 reads as
      1, and an empty status as "ALL". */
  function Prev(f: Filters): (g: Filters)
    ensures g == f.(status := if f.status == "" then "ALL" else f.status,
      page := if f.page == 1 then 1 else f.page - 1)
  {
    JsNumberOfIntText(f.page - 1);
    Navigate(f, Overrides(None, Some(f.page - 1), None, None))
  }

  /** Next: `updateFilters({ page: page + 1 })`, read back. */
  function Next(f: Filters): (g: Filters)
    ensures g == f.(status := if f.status == "" then "ALL" else f.status,
      page := if f.page == -1 then 1 else f.page + 1)
  {
    JsNumberOfIntText(f.page + 1);
    Navigate(f, Overrides(None, Some(f.page + 1), None, None))
  }

  /** From a page within `1..pages`, an enabled Prev or Next button leads
      to a page within `1..pages` and changes nothing else. */
  lemma NavigationStaysInRange(f: Filters, pages: int)
    requires f.status != "" && 1 <= f.page <= pages
    ensures !PrevDisabled(f) ==> Prev(f) == f.(page := f.page - 1) && 1 <= Prev(f).page <= pages
    ensures !NextDisabled(f, Some(pages)) ==> Next(f) == f.(page := f.page + 1) && 1 <= Next(f).page <= pages
  {
    if !PrevDisabled(f) {
      UpdateFiltersRoundTrip(f, Overrides(None, Some(f.page - 1), None, None));
    }
    UpdateFiltersRoundTrip(f, Overrides(None, Some(f.page + 1), None, None));
  }

  /** Past the last page (or with no pages at all) Next is never disabled:
      every press moves one page further away. */
  lemma NextPastTheEnd(f: Filters, pages: int)
    requires f.status != "" && f.page > pages && f.page >= 1
    ensures !NextDisabled(f, Some(pages))
    ensures Next(f) == f.(page := f.page + 1) && !NextDisabled(Next(f), Some(pages))
  {
    UpdateFiltersRoundTrip(f, Overrides(None, Some(f.page + 1), None, None));
  }

  // ----- rows -----------------------------------------------------------------------

  /** The actions cell of a row. */
  datatype RowActions = NoColumn | Dash | Buttons(approve: Dialog, reject: Dialog)

  /** Only the owner sees the actions column; only a pending row has
      Approve and Reject, each opening the dialog for that row. */
  function ActionsFor(role: Role, r: Request): (a: RowActions)
    ensures a == NoColumn <==> role != Owner
    ensures a.Buttons? <==> role == Owner && r.status == Pending
    ensures a.Buttons? ==> a.approve == OpenDialog(r, Approve) && a.reject == OpenDialog(r, Reject)
  {
    if role != Owner then NoColumn
    else if r.status == Pending then Buttons(OpenDialog(r, Approve), OpenDialog(r, Reject))
    else Dash
  }

  /** A row that is not pending offers no decision to anyone; where a row
      offers one, confirming it sends the decision of the button that was
      pressed for that row. */
  lemma DecisionsOnlyForPendingRows(role: Role, r: Request, d: Decision)
    requires r.id != ""
    ensures r.status != Pending ==> !ActionsFor(role, r).Buttons?
    ensures ActionsFor(role, r).Buttons?
      ==> ConfirmAction(if d == Approve then ActionsFor(role, r).approve else ActionsFor(role, r).reject).0 == Some(Mutation(r.id, d))
  {
  }

  function StatusName(s: Status): (n: string)
    ensures |n| == 7 || |n| == 8
  {
    match s
    case Pending => "PENDING"
    case Approved => "APPROVED"
    case Rejected => "REJECTED"
  }

  /** The status badge: the status name, then " (used)" for a consumed
      request. */
  function StatusLabel(r: Request): (badge: string)
    ensures StatusName(r.status) <= badge
    ensures r.consumed <==> |badge| > |StatusName(r.status)|
    ensures r.consumed ==> badge[|StatusName(r.status)|..] == " (used)"
  {
    StatusName(r.status) + if r.consumed then " (used)" else ""
  }

  /** Two requests get the same badge only when they agree on status and
      consumption. */
  lemma StatusLabelInjective(r: Request, r': Request)
    ensures StatusLabel(r) == StatusLabel(r') <==> r.status == r'.status && r.consumed == r'.consumed
  {
    if StatusLabel(r) == StatusLabel(r') {
      var n, n' := StatusName(r.status), StatusName(r'.status);
      assert r.consumed == r'.consumed by {
        assert r.consumed <==> |StatusLabel(r)| >= 14;
        assert r'.consumed <==> |StatusLabel(r')| >= 14;
      }
      assert n == n' by {
        assert |n| == |n'|;
        assert n == StatusLabel(r)[..|n|];
        assert n' == StatusLabel(r')[..|n'|];
      }
      assert n[0] == n'[0];
    }
  }
}
