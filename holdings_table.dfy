/**
 * The holdings table: a fixed list of holdings, searched by symbol or
 * name, and a page index kept in range.
 */
module HoldingsTable {
  import opened Wrappers
  import opened Schema
  import opened Seqs
  import opened TableView
  import HoldingsColumns

  /** The global filter applied to one holding. */
  predicate Matches(h: Holding, filterValue: Option<string>) {
    GlobalMatch(h.symbol, h.name, filterValue)
  }

  /** The rows the global filter keeps, in table order. */
  function FilterRows(rows: seq<Holding>, filterValue: Option<string>): (r: seq<Holding>)
    ensures IsSubseq(r, rows)
    ensures forall h :: h in r <==> h in rows && Matches(h, filterValue)
    ensures forall h :: multiset(r)[h] == if Matches(h, filterValue) then multiset(rows)[h] else 0
    ensures filterValue == None || filterValue == Some("") ==> r == rows
  {
    var p := (h: Holding) => Matches(h, filterValue);
    FilterIsSubseq(rows, p);
    if filterValue == None || filterValue == Some("") then
      forall h | h in rows ensures p(h) { EmptySearchKeepsAll(h.symbol, h.name, filterValue); }
      FilterKeepsAll(rows, p);
      Filter(rows, p)
    else Filter(rows, p)
  }

  class HoldingsTableState {
    /** The holdings are read once and never replaced. */
    const data: seq<Holding>
    var pageIndex: nat

    constructor()
      ensures data == HoldingsColumns.Seed && pageIndex == 0
    {
      data := HoldingsColumns.Seed;
      pageIndex := 0;
    }

    /** The page guard: with no pages the index goes back to the first page. */
    method GuardPageIndex(pageCount: nat)
      modifies this
      ensures pageIndex == if pageCount == 0 then 0 else old(pageIndex)
    {
      if pageCount == 0 {
        pageIndex := 0;
      }
    }

    /** The body shown for a query (before column facets and paging). */
    function Visible(filterValue: Option<string>): (r: seq<BodyRow<Holding>>)
      reads this
      ensures |FilterRows(data, filterValue)| == 0 <==> r == [EmptyRow(7)]
      ensures forall i :: 0 <= i < |r| && r[i].DataRow? ==> Matches(r[i].row, filterValue)
    {
      Body(FilterRows(data, filterValue), |HoldingsColumns.ColumnIds|)
    }
  }
}
