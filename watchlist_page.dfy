/**
 * The watchlist page: a pre-built list chosen from the full watchlist,
 * the session summary computed from it, and the table showing it.
 */
module WatchlistPage {
  import opened Wrappers
  import opened Schema
  import opened Seqs
  import opened WatchlistColumns
  import opened WatchlistTable

  /** The pre-built lists. */
  datatype ListKey = All | Banking | It | Core

  /** Membership of an item in a pre-built list. */
  predicate InList(key: ListKey, item: WatchItem) {
    match key
    case All => true
    case Banking => item.sector == "Banking"
    case It => item.sector == "IT"
    case Core => item.group.GetOr("") == "Core"
  }

  /** The items of a pre-built list, in watchlist order. */
  function ListFilter(key: ListKey, list: seq<WatchItem>): (r: seq<WatchItem>)
    ensures IsSubseq(r, list)
    ensures forall x :: x in r <==> x in list && InList(key, x)
    ensures forall x :: multiset(r)[x] == if InList(key, x) then multiset(list)[x] else 0
    ensures key == All ==> r == list
  {
    var p := (x: WatchItem) => InList(key, x);
    FilterIsSubseq(list, p);
    if key == All then
      FilterKeepsAll(list, p);
      Filter(list, p)
    else Filter(list, p)
  }

  /** The day's change of an item, a missing value read as 0. */
  function Change(item: WatchItem): real {
    item.changePct.GetOr(0.0)
  }

  /** Number of items up on the day. */
  function Advancers(items: seq<WatchItem>): (n: nat)
    ensures n <= |items|
    ensures n == |set i | 0 <= i < |items| && Change(items[i]) > 0.0|
  {
    var p := (x: WatchItem) => Change(x) > 0.0;
    CountIsIndexCount(items, p);
    assert Positions(items, p) == set i | 0 <= i < |items| && Change(items[i]) > 0.0;
    Count(items, p)
  }

  /** Number of items down on the day. */
  function Decliners(items: seq<WatchItem>): (n: nat)
    ensures n <= |items|
    ensures n == |set i | 0 <= i < |items| && Change(items[i]) < 0.0|
  {
    var p := (x: WatchItem) => Change(x) < 0.0;
    CountIsIndexCount(items, p);
    assert Positions(items, p) == set i | 0 <= i < |items| && Change(items[i]) < 0.0;
    Count(items, p)
  }

  function Unchanged(items: seq<WatchItem>): nat {
    Count(items, (x: WatchItem) => Change(x) == 0.0)
  }

  /** Every item is exactly one of advancing, declining or unchanged, so the first two never exceed the list. */
  lemma {:induction false} MarketBreadth(items: seq<WatchItem>)
    ensures Advancers(items) + Decliners(items) + Unchanged(items) == |items|
    ensures Advancers(items) + Decliners(items) <= |items|
  {
    if items != [] {
      MarketBreadth(items[1..]);
    }
  }

  /** Sum of the changes. */
  function TotalChange(items: seq<WatchItem>): real {
    Sum(items, Change)
  }

  /** Average change, 0 for an empty list. */
  function AvgChange(items: seq<WatchItem>): (a: real)
    ensures |items| == 0 ==> a == 0.0
    ensures |items| > 0 ==> a * |items| as real == TotalChange(items)
  {
    if |items| > 0 then TotalChange(items) / |items| as real else 0.0
  }

  /** The sum lies between the list length times any lower and upper bound of the changes. */
  lemma {:induction false} TotalChangeBounds(items: seq<WatchItem>, lo: real, hi: real)
    requires forall i :: 0 <= i < |items| ==> lo <= Change(items[i]) <= hi
    ensures lo * |items| as real <= TotalChange(items) <= hi * |items| as real
  {
    if items != [] {
      var init := items[..|items| - 1];
      assert forall i :: 0 <= i < |init| ==> init[i] == items[i];
      TotalChangeBounds(init, lo, hi);
    }
  }

  /** The average is a mean: it lies within the range of the changes. */
  lemma AvgWithinBounds(items: seq<WatchItem>, lo: real, hi: real)
    requires |items| > 0
    requires forall i :: 0 <= i < |items| ==> lo <= Change(items[i]) <= hi
    ensures lo <= AvgChange(items) <= hi
  {
    TotalChangeBounds(items, lo, hi);
    var n := |items| as real;
    var a := AvgChange(items);
    assert a * n == TotalChange(items);
  }

  /** Number of items with a truthy alert, the rows showing the Alert badge. */
  function Alerts(items: seq<WatchItem>): (n: nat)
    ensures n <= |items|
    ensures n == |set i | 0 <= i < |items| && AlertBadge(items[i])|
  {
    CountIsIndexCount(items, AlertBadge);
    assert Positions(items, AlertBadge) == set i | 0 <= i < |items| && AlertBadge(items[i]);
    Count(items, AlertBadge)
  }

  /** The Market Summary card. */
  datatype Summary = Summary(advancers: nat, decliners: nat, avgChange: real, alerts: nat)

  function Summarize(items: seq<WatchItem>): (s: Summary)
    ensures s.advancers + s.decliners <= |items| && s.alerts <= |items|
  {
    MarketBreadth(items);
    Summary(Advancers(items), Decliners(items), AvgChange(items), Alerts(items))
  }

  class WatchlistPageState {
    /** The full watchlist the lists are drawn from. */
    const list: seq<WatchItem>
    var basis: PriceBasis
    var listKey: ListKey
    var table: WatchlistTableState

    /** The page opens on all items against the previous close. */
    constructor(list: seq<WatchItem>)
      ensures this.list == list && basis == PrevClose && listKey == All
      ensures fresh(table) && table.data == list && table.basis == PrevClose
      ensures table.dragId == None && table.selected == None && !table.detailsOpen && table.pageIndex == 0
    {
      this.list := list;
      basis := PrevClose;
      listKey := All;
      table := new WatchlistTableState(Some(list), list, Some(PrevClose));
    }

    /** The items of the chosen list. */
    function Items(): seq<WatchItem>
      reads this
    {
      ListFilter(listKey, list)
    }

    /** A new basis reaches the table unchanged. */
    method SetBasis(b: PriceBasis)
      modifies this, table
      ensures basis == b && listKey == old(listKey) && table == old(table)
      ensures table.basis == b && table.data == old(table.data)
      ensures table.dragId == old(table.dragId) && table.selected == old(table.selected)
      ensures table.detailsOpen == old(table.detailsOpen) && table.pageIndex == old(table.pageIndex)
    {
      basis := b;
      table.ReceiveProps(Some(Items()), Some(basis));
    }

    /**
     * Choosing a list as the page does it: the summary follows the new
     * list, but the table keeps the rows it was first given.
     */
    method SelectListAsWritten(k: ListKey)
      modifies this, table
      ensures listKey == k && basis == old(basis) && table == old(table)
      ensures table.data == old(table.data) && table.basis == basis
      ensures table.dragId == old(table.dragId) && table.selected == old(table.selected)
      ensures table.detailsOpen == old(table.detailsOpen) && table.pageIndex == old(table.pageIndex)
    {
      listKey := k;
      table.ReceiveProps(Some(Items()), Some(basis));
    }

    /** Choosing a list with the table remounted for it, so the table shows the chosen list. */
    method SelectList(k: ListKey)
      modifies this
      ensures listKey == k && basis == old(basis)
      ensures fresh(table) && table.data == Items() && table.basis == basis
      ensures table.dragId == None && table.selected == None && !table.detailsOpen && table.pageIndex == 0
    {
      listKey := k;
      table := new WatchlistTableState(Some(Items()), list, Some(basis));
    }
  }

  function Quote(symbol: string, sector: string): WatchItem {
    WatchItem(symbol, symbol, sector, 100.0, None, 0.0, 0.0, 100.0, 100.0, 100.0, 100.0,
              None, None, None, None, None, None, None)
  }

  /** After switching to Banking, the table still lists an IT stock the summary no longer counts. */
  method StaleTableAfterSelect() returns (tableRows: nat, listRows: nat)
    ensures tableRows == 2 && listRows == 1
  {
    var page := new WatchlistPageState([Quote("HDFCBANK", "Banking"), Quote("TCS", "IT")]);
    page.SelectListAsWritten(Banking);
    assert page.Items() == [page.list[0]] by {
      assert page.Items() == Filter(page.list, (x: WatchItem) => InList(Banking, x));
    }
    tableRows := |page.table.data|;
    listRows := |page.Items()|;
  }

  /** With the remount, the table and the summary describe the same items. */
  method TableFollowsSelect() returns (tableRows: nat, listRows: nat)
    ensures tableRows == 1 && listRows == 1
  {
    var page := new WatchlistPageState([Quote("HDFCBANK", "Banking"), Quote("TCS", "IT")]);
    page.SelectList(Banking);
    assert page.Items() == [page.list[0]] by {
      assert page.Items() == Filter(page.list, (x: WatchItem) => InList(Banking, x));
    }
    tableRows := |page.table.data|;
    listRows := |page.Items()|;
  }
}
