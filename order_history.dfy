/** The staff order history of `OrderHistoryPage.tsx`: its filter record,
    the query built from it, and the pagination controls. */
module OrderHistory {

  /** The filter record the page keeps. Status and payment status hold the
      chosen option's value, "ALL" meaning no restriction. */
  datatype Filters = Filters(
    status: string,
    paymentStatus: string,
    startDate: string,
    endDate: string,
    page: int,
    limit: int)

  /** The page opens on page 1 of 10 orders per page, unfiltered. */
  function InitialFilters(): (f: Filters)
    ensures f.page == 1 && f.limit == 10 && f.startDate == "" && f.endDate == ""
    ensures f.status == "ALL" && f.paymentStatus == "ALL"
  {
    Filters("ALL", "ALL", "", "", 1, 10)
  }

  /** The four filter inputs */
  datatype FilterKey = StatusKey | PaymentStatusKey | StartDateKey | EndDateKey

  /** `handleFilterChange`: set the chosen filter, go back to page 1, keep
      the other filters and the page size. */
  function FilterChange(f: Filters, key: FilterKey, value: string): (r: Filters)
    ensures r.page == 1 && r.limit == f.limit
    ensures key == StatusKey ==> r == f.(status := value, page := 1)
    ensures key == PaymentStatusKey ==> r == f.(paymentStatus := value, page := 1)
    ensures key == StartDateKey ==> r == f.(startDate := value, page := 1)
    ensures key == EndDateKey ==> r == f.(endDate := value, page := 1)
  {
    match key
    case StatusKey => f.(status := value, page := 1)
    case PaymentStatusKey => f.(paymentStatus := value, page := 1)
    case StartDateKey => f.(startDate := value, page := 1)
    case EndDateKey => f.(endDate := value, page := 1)
  }

  /** The value a filter input currently holds */
  function Get(f: Filters, key: FilterKey): string
  {
    match key
    case StatusKey => f.status
    case PaymentStatusKey => f.paymentStatus
    case StartDateKey => f.startDate
    case EndDateKey => f.endDate
  }

  /** After a change the chosen input reads the new value and every other
      input reads what it did before. */
  lemma FilterChangeReadBack(f: Filters, key: FilterKey, value: string, other: FilterKey)
    ensures Get(FilterChange(f, key, value), key) == value
    ensures other != key ==> Get(FilterChange(f, key, value), other) == Get(f, other)
  {
  }

  /** Changing any filter to the value it already has only resets the page. */
  lemma FilterChangeSameValue(f: Filters, key: FilterKey)
    ensures FilterChange(f, key, Get(f, key)) == f.(page := 1)
  {
  }

  /** Changes to two different filters commute. */
  lemma FilterChangesCommute(f: Filters, k1: FilterKey, v1: string, k2: FilterKey, v2: string)
    requires k1 != k2
    ensures FilterChange(FilterChange(f, k1, v1), k2, v2) == FilterChange(FilterChange(f, k2, v2), k1, v1)
  {
  }

  /** Previous: one page back, never below 1. */
  function Previous(page: int): (p: int)
    ensures p >= 1
    ensures page > 1 ==> p == page - 1
    ensures page <= 1 ==> p == 1
  {
    if page - 1 > 1 then page - 1 else 1
  }

  /** Next: one page on, never past the last page. */
  function Next(page: int, totalPages: int): (p: int)
    ensures p <= totalPages
    ensures page < totalPages ==> p == page + 1
    ensures page >= totalPages ==> p == totalPages
  {
    if page + 1 < totalPages then page + 1 else totalPages
  }

  /** From a valid page, Previous and Next both give a valid page. */
  lemma StepsKeepPageInRange(page: int, totalPages: int)
    requires 1 <= page <= totalPages
    ensures 1 <= Previous(page) <= totalPages
    ensures 1 <= Next(page, totalPages) <= totalPages
  {
  }

  /** Pressing Next `n` times from a valid page stops at the last page. */
  lemma {:induction false} NextRepeatedReachesLast(page: int, totalPages: int, n: nat)
    requires 1 <= page <= totalPages && n >= totalPages - page
    ensures NextTimes(page, totalPages, n) == totalPages
    decreases n
  {
    if n > 0 {
      NextRepeatedReachesLast(Next(page, totalPages), totalPages, n - 1);
    }
  }

  /** Next pressed `n` times */
  function NextTimes(page: int, totalPages: int, n: nat): int
    decreases n
  {
    if n == 0 then page else NextTimes(Next(page, totalPages), totalPages, n - 1)
  }

  /** The controls are shown only when there is more than one page. */
  predicate ShowsPagination(totalPages: int)
  {
    totalPages > 1
  }

  /** First and last result number shown */
  function RangeStart(page: int, limit: int): int
  {
    (page - 1) * limit + 1
  }

  function RangeEnd(page: int, limit: int, total: int): (e: int)
    ensures e <= total && e <= page * limit
    ensures e == total || e == page * limit
  {
    if page * limit < total then page * limit else total
  }

  /** For a non-empty page the range is well formed: it starts at or before
      its end, ends at or before the total and spans at most one page. */
  lemma RangeWellFormed(page: int, limit: int, total: int)
    requires page >= 1 && limit >= 1 && (page - 1) * limit < total
    ensures 1 <= RangeStart(page, limit) <= RangeEnd(page, limit, total) <= total
    ensures RangeEnd(page, limit, total) - RangeStart(page, limit) + 1 <= limit
  {
    assert (page - 1) * limit >= 0;
  }

  /** The page buttons, 1 to totalPages */
  function PageButtons(totalPages: int): (r: seq<int>)
    ensures |r| == if totalPages > 0 then totalPages else 0
    ensures forall k :: 0 <= k < |r| ==> r[k] == k + 1
  {
    if totalPages <= 0 then [] else PageButtons(totalPages - 1) + [totalPages]
  }

  /** The buttons are strictly ascending and cover exactly the pages 1 to totalPages. */
  lemma PageButtonsCoverPages(totalPages: int)
    ensures forall i, j :: 0 <= i < j < |PageButtons(totalPages)| ==> PageButtons(totalPages)[i] < PageButtons(totalPages)[j]
    ensures forall p :: p in PageButtons(totalPages) <==> 1 <= p <= totalPages
  {
    var r := PageButtons(totalPages);
    forall p | 1 <= p <= totalPages ensures p in r {
      assert r[p - 1] == p;
    }
  }

  /** One query parameter */
  datatype Param = Param(name: string, value: string)

  function IntToString(n: int): string
  {
    if n < 0 then "-" + NatToString(-n) else NatToString(n)
  }

  function NatToString(n: nat): string
  {
    if n < 10 then [DigitChar(n)] else NatToString(n / 10) + [DigitChar(n % 10)]
  }

  function DigitChar(d: nat): char
    requires d < 10
  {
    "0123456789"[d]
  }

  /** The query of `loadOrders`: page, limit, status and payment status
      always, then each date only when it is non-empty. */
  function Query(f: Filters): (q: seq<Param>)
    ensures |q| >= 4
    ensures q[..4] == [Param("page", IntToString(f.page)), Param("limit", IntToString(f.limit)),
                       Param("status", f.status), Param("paymentStatus", f.paymentStatus)]
  {
    [Param("page", IntToString(f.page)), Param("limit", IntToString(f.limit)),
     Param("status", f.status), Param("paymentStatus", f.paymentStatus)]
    + (if f.startDate != "" then [Param("startDate", f.startDate)] else [])
    + (if f.endDate != "" then [Param("endDate", f.endDate)] else [])
  }

  predicate HasParam(q: seq<Param>, name: string)
  {
    exists k :: 0 <= k < |q| && q[k].name == name
  }

  /** A date parameter is sent iff its date is non-empty, and then it carries
      that date; the query has one parameter per non-empty date beyond the
      fixed four. */
  lemma QueryDatesIffSet(f: Filters)
    ensures HasParam(Query(f), "startDate") <==> f.startDate != ""
    ensures HasParam(Query(f), "endDate") <==> f.endDate != ""
    ensures |Query(f)| == 4 + (if f.startDate != "" then 1 else 0) + (if f.endDate != "" then 1 else 0)
    ensures forall k :: 0 <= k < |Query(f)| && Query(f)[k].name == "startDate" ==> Query(f)[k].value == f.startDate
    ensures forall k :: 0 <= k < |Query(f)| && Query(f)[k].name == "endDate" ==> Query(f)[k].value == f.endDate
  {
    var q := Query(f);
    if f.startDate != "" {
      assert q[4].name == "startDate";
    }
    if f.endDate != "" {
      assert q[|q| - 1].name == "endDate";
    }
  }
}
