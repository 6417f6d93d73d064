/** The top-activities table of frontend/src/components/admin/AnalyticsTable.tsx:
    the search filter, five rows per page, the row ranks, the "Showing a to
    b of n" line and the summary over all rows. */
module AnalyticsTable {
  import opened Common
  import opened Collections

  datatype Row = Row(id: string, title: string, city: string, uses: int, avgCost: int)

  const ItemsPerPage: nat := 5

  /** The search test on one row. */
  predicate RowMatches(r: Row, term: string)
  {
    Contains(ToLower(r.title), ToLower(term)) || Contains(ToLower(r.city), ToLower(term))
  }

  function FilteredRows(data: seq<Row>, term: string): (r: seq<Row>)
    ensures forall i :: 0 <= i < |r| ==> r[i] in data && RowMatches(r[i], term)
    ensures forall i :: 0 <= i < |data| && RowMatches(data[i], term) ==> data[i] in r
  {
    Filter(data, (x: Row) => RowMatches(x, term))
  }

  /** An empty search term keeps every row, in order. */
  lemma EmptyTermKeepsAll(data: seq<Row>)
    ensures FilteredRows(data, "") == data
  {
    forall i | 0 <= i < |data| ensures RowMatches(data[i], "") {
      ContainsEmpty(ToLower(data[i].title));
    }
    FilterAll(data, (x: Row) => RowMatches(x, ""));
  }

  /** The filter keeps the input order. */
  lemma FilterKeepsOrder(data: seq<Row>, term: string)
    ensures IsSubsequence(FilteredRows(data, term), data)
  {
    FilterSubsequence(data, (x: Row) => RowMatches(x, term));
  }

  /** `Math.ceil(filtered / itemsPerPage)`. */
  function TotalPages(n: nat): (p: nat)
    ensures (p - 1) * ItemsPerPage < n <= p * ItemsPerPage
  {
    CeilDiv(n, ItemsPerPage)
  }

  function StartIndex(page: int): int
  {
    (page - 1) * ItemsPerPage
  }

  /** `Array.prototype.slice(start, end)` for 0 <= start <= end. */
  function Slice<T>(s: seq<T>, start: nat, end: nat): (r: seq<T>)
    requires start <= end
    ensures |r| <= end - start
    ensures start < |s| ==> |r| == (if end < |s| then end else |s|) - start
    ensures forall i :: 0 <= i < |r| ==> start + i < |s| && r[i] == s[start + i]
  {
    if start >= |s| then [] else if end < |s| then s[start..end] else s[start..]
  }

  /** The rows of page p (counted from 1): at most five, each at its place
      in the filtered list. */
  function PageRows(filtered: seq<Row>, page: nat): (r: seq<Row>)
    requires page >= 1
    ensures |r| <= ItemsPerPage
    ensures forall i :: 0 <= i < |r| ==> StartIndex(page) + i < |filtered| && r[i] == filtered[StartIndex(page) + i]
    ensures page <= TotalPages(|filtered|) ==> |r| > 0 || filtered == []
    ensures page > TotalPages(|filtered|) ==> r == []
  {
    Slice(filtered, StartIndex(page), StartIndex(page) + ItemsPerPage)
  }

  /** The rank shown for row i of page p, `index + 1 + startIndex`, is that
      row's position in the filtered list plus one. */
  lemma RankIsPosition(filtered: seq<Row>, page: nat, i: nat)
    requires page >= 1 && i < |PageRows(filtered, page)|
    ensures var rank := i + 1 + StartIndex(page);
      1 <= rank <= |filtered| && filtered[rank - 1] == PageRows(filtered, page)[i]
  {
  }

  /** Every filtered row is on exactly one page. */
  lemma PagesCoverFiltered(filtered: seq<Row>, k: nat)
    requires k < |filtered|
    ensures var page := k / ItemsPerPage + 1;
      && 1 <= page <= TotalPages(|filtered|)
      && k - StartIndex(page) < |PageRows(filtered, page)|
      && PageRows(filtered, page)[k - StartIndex(page)] == filtered[k]
  {
  }

  /** "Showing a to b of n". */
  datatype Showing = Showing(first: int, last: int, total: int)

  function ShowingLine(filtered: seq<Row>, page: nat): (s: Showing)
    requires page >= 1
    ensures s.first == StartIndex(page) + 1 && s.total == |filtered|
    ensures s.last == (if StartIndex(page) + ItemsPerPage < |filtered| then StartIndex(page) + ItemsPerPage else |filtered|)
    ensures PageRows(filtered, page) != [] ==> s.last - s.first + 1 == |PageRows(filtered, page)|
  {
    var start := StartIndex(page);
    var end := start + ItemsPerPage;
    Showing(start + 1, if end < |filtered| then end else |filtered|, |filtered|)
  }

  function Uses(data: seq<Row>): (r: seq<int>)
    ensures |r| == |data| && forall i :: 0 <= i < |data| ==> r[i] == data[i].uses
  {
    seq(|data|, i requires 0 <= i < |data| => data[i].uses)
  }

  function Costs(data: seq<Row>): (r: seq<int>)
    ensures |r| == |data| && forall i :: 0 <= i < |data| ==> r[i] == data[i].avgCost
  {
    seq(|data|, i requires 0 <= i < |data| => data[i].avgCost)
  }

  /** `Math.round(x / n)` for n > 0: halves round up. */
  function RoundDiv(x: int, n: nat): (r: int)
    requires n > 0
    ensures 2 * r * n <= 2 * x + n < 2 * (r + 1) * n
  {
    FloorDiv(2 * x + n, 2 * n)
  }

  /** The summary cards: row count, total uses and the rounded average
      cost, all over the unfiltered data; with no rows the average is NaN
      (None). */
  datatype Summary = Summary(count: nat, totalUses: int, avgCost: Option<int>)

  function SummaryOf(data: seq<Row>): (s: Summary)
    ensures s.count == |data| && s.totalUses == Sum(Uses(data))
    ensures s.avgCost.None? <==> data == []
    ensures |data| > 0 ==> s.avgCost == Some(RoundDiv(Sum(Costs(data)), |data|))
  {
    Summary(|data|, Sum(Uses(data)), if |data| == 0 then None else Some(RoundDiv(Sum(Costs(data)), |data|)))
  }

  class TableState {
    const data: seq<Row>
    var searchTerm: string
    var currentPage: nat

    ghost predicate Valid()
      reads this
    {
      currentPage >= 1
    }

    constructor (data: seq<Row>)
      ensures this.data == data && searchTerm == "" && currentPage == 1 && Valid()
    {
      this.data := data;
      searchTerm, currentPage := "", 1;
    }

    function Visible(): seq<Row>
      requires Valid()
      reads this
    {
      PageRows(FilteredRows(data, searchTerm), currentPage)
    }

    /** Typing in the search box does not reset the page, so a page past the
        end of the new filtered list shows no rows. */
    method SetSearchTerm(term: string)
      requires Valid()
      modifies this
      ensures Valid() && searchTerm == term && currentPage == old(currentPage)
      ensures currentPage > TotalPages(|FilteredRows(data, term)|) ==> Visible() == []
    {
      searchTerm := term;
    }

    /** The previous button, disabled on page 1. */
    method PreviousPage()
      requires Valid()
      modifies this
      ensures Valid() && searchTerm == old(searchTerm)
      ensures currentPage == if old(currentPage) == 1 then 1 else old(currentPage) - 1
    {
      if currentPage != 1 {
        currentPage := currentPage - 1;
      }
    }

    /** The next button, disabled on the last page. */
    method NextPage()
      requires Valid()
      modifies this
      ensures Valid() && searchTerm == old(searchTerm)
      ensures var last := TotalPages(|FilteredRows(data, searchTerm)|);
        currentPage == if old(currentPage) == last then last else old(currentPage) + 1
    {
      if currentPage != TotalPages(|FilteredRows(data, searchTerm)|) {
        currentPage := currentPage + 1;
      }
    }

    /** A numbered page button. */
    method SelectPage(page: nat)
      requires Valid() && 1 <= page <= TotalPages(|FilteredRows(data, searchTerm)|)
      modifies this
      ensures Valid() && searchTerm == old(searchTerm) && currentPage == page
      ensures Visible() != []
    {
      currentPage := page;
    }
  }
}
