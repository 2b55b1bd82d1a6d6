/**
 * The watchlist table: its own copy of the items, reordered by drag and
 * drop and annotated by notes saved from the details dialog, searched by
 * symbol or name and narrowed by sector and group facets.
 */
module WatchlistTable {
  import opened Wrappers
  import opened Schema
  import opened Seqs
  import opened TableView
  import opened WatchlistColumns
  import opened InstrumentDetails

  /** A rendered row: the table's row id and the item behind it. */
  datatype Row = Row(id: string, original: WatchItem)

  function RowIds(rows: seq<Row>): (r: seq<string>)
    ensures |r| == |rows| && forall i :: 0 <= i < |rows| ==> r[i] == rows[i].id
  {
    seq(|rows|, i requires 0 <= i < |rows| => rows[i].id)
  }

  function Symbols(data: seq<WatchItem>): (r: seq<string>)
    ensures |r| == |data| && forall i :: 0 <= i < |data| ==> r[i] == data[i].symbol
  {
    seq(|data|, i requires 0 <= i < |data| => data[i].symbol)
  }

  /**
   * Where the rendered row `id` sits in the canonical list: the first
   * rendered row with that id, then the first item with that row's symbol.
   */
  function Locate(data: seq<WatchItem>, rows: seq<Row>, id: string): (r: Option<nat>)
    ensures r.None? <==> id !in RowIds(rows) || rows[IndexOf(RowIds(rows), id)].original.symbol !in Symbols(data)
    ensures r.Some? ==> r.value < |data| && data[r.value].symbol == rows[IndexOf(RowIds(rows), id)].original.symbol
    ensures r.Some? ==> forall j :: 0 <= j < r.value ==> data[j].symbol != data[r.value].symbol
  {
    var i := IndexOf(RowIds(rows), id);
    if i < 0 then None
    else
      var j := IndexOf(Symbols(data), rows[i].original.symbol);
      if j < 0 then None else Some(j)
  }

  /** Whether a drop of `dragId` onto `target` goes ahead. */
  predicate DropApplies(data: seq<WatchItem>, dragId: Option<string>, target: string, rows: seq<Row>) {
    dragId.Some? && dragId.value != "" && dragId.value != target
    && Locate(data, rows, dragId.value).Some? && Locate(data, rows, target).Some?
  }

  /** The list after a drop that goes ahead: the source item moved to the target's index. */
  function Dropped(data: seq<WatchItem>, dragId: Option<string>, target: string, rows: seq<Row>): (r: seq<WatchItem>)
    requires DropApplies(data, dragId, target, rows)
    ensures |r| == |data| && multiset(r) == multiset(data)
    ensures var o, n := Locate(data, rows, dragId.value).value, Locate(data, rows, target).value;
      r[n] == data[o] && RemoveAt(r, n) == RemoveAt(data, o)
  {
    Move(data, Locate(data, rows, dragId.value).value, Locate(data, rows, target).value)
  }

  /** A drop keeps the symbols, each as often as before: their list is moved the same way. */
  lemma DropKeepsSymbols(data: seq<WatchItem>, dragId: Option<string>, target: string, rows: seq<Row>)
    requires DropApplies(data, dragId, target, rows)
    ensures var o, n := Locate(data, rows, dragId.value).value, Locate(data, rows, target).value;
      Symbols(Dropped(data, dragId, target, rows)) == Move(Symbols(data), o, n)
    ensures multiset(Symbols(Dropped(data, dragId, target, rows))) == multiset(Symbols(data))
  {
    SymbolsOfMove(data, Locate(data, rows, dragId.value).value, Locate(data, rows, target).value);
  }

  lemma SymbolsOfMove(s: seq<WatchItem>, from: nat, to: nat)
    requires from < |s| && to < |s|
    ensures Symbols(Move(s, from, to)) == Move(Symbols(s), from, to)
  {
    var r, t := Move(s, from, to), Move(Symbols(s), from, to);
    var rs, ss := RemoveAt(r, to), RemoveAt(s, from);
    var rt, st := RemoveAt(t, to), RemoveAt(Symbols(s), from);
    assert rs == ss && rt == st;
    forall k | 0 <= k < |s| ensures Symbols(r)[k] == t[k] {
      if k < to {
        assert r[k] == rs[k] && t[k] == rt[k];
        assert ss[k].symbol == st[k];
      } else if k > to {
        assert r[k] == rs[k - 1] && t[k] == rt[k - 1];
        assert ss[k - 1].symbol == st[k - 1];
      }
    }
  }

  /** `onSaveNote`: set the note of every item with that symbol. */
  function SaveNote(data: seq<WatchItem>, symbol: string, note: string): (r: seq<WatchItem>)
    ensures |r| == |data|
    ensures forall i :: 0 <= i < |data| ==>
      r[i] == if data[i].symbol == symbol then data[i].(note := Some(note)) else data[i]
  {
    seq(|data|, i requires 0 <= i < |data| =>
      if data[i].symbol == symbol then data[i].(note := Some(note)) else data[i])
  }

  /** Saving a note keeps the order of symbols, is idempotent, and shows the badge iff the note is non-empty. */
  lemma SaveNoteFacts(data: seq<WatchItem>, symbol: string, note: string)
    ensures Symbols(SaveNote(data, symbol, note)) == Symbols(data)
    ensures SaveNote(SaveNote(data, symbol, note), symbol, note) == SaveNote(data, symbol, note)
    ensures forall i :: 0 <= i < |data| && data[i].symbol == symbol ==>
      (NoteBadge(SaveNote(data, symbol, note)[i]) <==> note != "")
  {
  }

  /** The global filter applied to one item. */
  predicate Matches(item: WatchItem, filterValue: Option<string>) {
    GlobalMatch(item.symbol, item.name, filterValue)
  }

  /** The items the global filter keeps, in table order. */
  function FilterRows(rows: seq<WatchItem>, filterValue: Option<string>): (r: seq<WatchItem>)
    ensures IsSubseq(r, rows)
    ensures forall x :: x in r <==> x in rows && Matches(x, filterValue)
    ensures forall x :: multiset(r)[x] == if Matches(x, filterValue) then multiset(rows)[x] else 0
    ensures filterValue == None || filterValue == Some("") ==> r == rows
  {
    var p := (x: WatchItem) => Matches(x, filterValue);
    FilterIsSubseq(rows, p);
    if filterValue == None || filterValue == Some("") then
      forall x | x in rows ensures p(x) { EmptySearchKeepsAll(x.symbol, x.name, filterValue); }
      FilterKeepsAll(rows, p);
      Filter(rows, p)
    else Filter(rows, p)
  }

  function Sectors(data: seq<WatchItem>): (r: seq<string>)
    ensures |r| == |data| && forall i :: 0 <= i < |data| ==> r[i] == data[i].sector
  {
    seq(|data|, i requires 0 <= i < |data| => data[i].sector)
  }

  function Groups(data: seq<WatchItem>): (r: seq<string>)
    ensures |r| == |data| && forall i :: 0 <= i < |data| ==> r[i] == GroupLabel(data[i])
  {
    seq(|data|, i requires 0 <= i < |data| => GroupLabel(data[i]))
  }

  /** Sector facet options: each sector once, in order of first appearance. */
  function SectorOptions(data: seq<WatchItem>): (r: seq<string>)
    ensures NoDup(r)
    ensures forall s :: s in r <==> exists i :: 0 <= i < |data| && data[i].sector == s
  {
    Distinct(Sectors(data))
  }

  /** Group facet options, a missing group counted as General. */
  function GroupOptions(data: seq<WatchItem>): (r: seq<string>)
    ensures NoDup(r)
    ensures forall g :: g in r <==> exists i :: 0 <= i < |data| && GroupLabel(data[i]) == g
    ensures (exists i :: 0 <= i < |data| && data[i].group == None) ==> "General" in r
  {
    Distinct(Groups(data))
  }

  class WatchlistTableState {
    var data: seq<WatchItem>
    var dragId: Option<string>
    var detailsOpen: bool
    var selected: Option<WatchItem>
    var pageIndex: nat
    var basis: PriceBasis

    /** The list is copied once from `items`, or from the default list when none is given. */
    constructor(items: Option<seq<WatchItem>>, defaultList: seq<WatchItem>, basis: Option<PriceBasis>)
      ensures data == items.GetOr(defaultList) && this.basis == basis.GetOr(PrevClose)
      ensures dragId == None && !detailsOpen && selected == None && pageIndex == 0
    {
      data := items.GetOr(defaultList);
      this.basis := basis.GetOr(PrevClose);
      dragId := None;
      detailsOpen := false;
      selected := None;
      pageIndex := 0;
    }

    /**
     * A later render with new props: the basis is read afresh, but the
     * list only seeded the state on the first render and is ignored now.
     */
    method ReceiveProps(items: Option<seq<WatchItem>>, basis: Option<PriceBasis>)
      modifies this
      ensures this.basis == basis.GetOr(PrevClose)
      ensures data == old(data) && dragId == old(dragId) && detailsOpen == old(detailsOpen)
      ensures selected == old(selected) && pageIndex == old(pageIndex)
    {
      this.basis := basis.GetOr(PrevClose);
    }

    method HandleDragStart(rowId: string)
      modifies this
      ensures basis == old(basis)
      ensures dragId == Some(rowId)
      ensures data == old(data) && detailsOpen == old(detailsOpen) && selected == old(selected)
      ensures pageIndex == old(pageIndex)
    {
      dragId := Some(rowId);
    }

    /** `handleDrop`: move the dragged item to the target's index; any failed lookup leaves everything as it was. */
    method HandleDrop(target: string, rows: seq<Row>)
      modifies this
      ensures basis == old(basis)
      ensures DropApplies(old(data), old(dragId), target, rows) ==>
        data == Dropped(old(data), old(dragId), target, rows) && dragId == None
      ensures !DropApplies(old(data), old(dragId), target, rows) ==>
        data == old(data) && dragId == old(dragId)
      ensures detailsOpen == old(detailsOpen) && selected == old(selected) && pageIndex == old(pageIndex)
    {
      if dragId.None? || dragId.value == "" || dragId.value == target {
        return;
      }
      var ids := RowIds(rows);
      var sourceIdx := IndexOf(ids, dragId.value);
      var targetIdx := IndexOf(ids, target);
      if sourceIdx < 0 || targetIdx < 0 {
        return;
      }
      var sourceItem := rows[sourceIdx].original;
      var targetItem := rows[targetIdx].original;
      var oldIndex := IndexOf(Symbols(data), sourceItem.symbol);
      var newIndex := IndexOf(Symbols(data), targetItem.symbol);
      if oldIndex < 0 || newIndex < 0 {
        return;
      }
      assert Locate(data, rows, dragId.value) == Some(oldIndex);
      assert Locate(data, rows, target) == Some(newIndex);
      assert DropApplies(data, dragId, target, rows);
      Splice(oldIndex, newIndex);
    }

    /** Take the item at `oldIndex` out and insert it at `newIndex`, ending the drag. */
    method Splice(oldIndex: nat, newIndex: nat)
      requires oldIndex < |data| && newIndex < |data|
      modifies this
      ensures basis == old(basis)
      ensures data == Move(old(data), oldIndex, newIndex) && dragId == None
      ensures detailsOpen == old(detailsOpen) && selected == old(selected) && pageIndex == old(pageIndex)
    {
      var next := data;
      var moved := next[oldIndex];
      next := RemoveAt(next, oldIndex);
      next := InsertAt(next, newIndex, moved);
      data := next;
      dragId := None;
    }

    /** `onSaveNote` from the dialog. */
    method OnSaveNote(symbol: string, note: string)
      modifies this
      ensures basis == old(basis)
      ensures data == SaveNote(old(data), symbol, note)
      ensures dragId == old(dragId) && detailsOpen == old(detailsOpen) && selected == old(selected)
      ensures pageIndex == old(pageIndex)
    {
      data := SaveNote(data, symbol, note);
    }

    /** Double-clicking a row opens it in the dialog. */
    method OpenDetails(row: WatchItem)
      modifies this
      ensures basis == old(basis)
      ensures selected == Some(row) && detailsOpen
      ensures data == old(data) && dragId == old(dragId) && pageIndex == old(pageIndex)
    {
      selected := Some(row);
      detailsOpen := true;
    }

    /** Carry out what a dialog button asked for: save first, then the open state. */
    method Apply(fx: Effects)
      modifies this
      ensures basis == old(basis)
      ensures data == if fx.save.Some? then SaveNote(old(data), fx.save.value.symbol, fx.save.value.note) else old(data)
      ensures detailsOpen == if fx.openChange.Some? then fx.openChange.value else old(detailsOpen)
      ensures dragId == old(dragId) && selected == old(selected) && pageIndex == old(pageIndex)
    {
      if fx.save.Some? {
        OnSaveNote(fx.save.value.symbol, fx.save.value.note);
      }
      if fx.openChange.Some? {
        detailsOpen := fx.openChange.value;
      }
    }

    /** The page guard: with no pages the index goes back to the first page. */
    method GuardPageIndex(pageCount: nat)
      modifies this
      ensures basis == old(basis)
      ensures pageIndex == if pageCount == 0 then 0 else old(pageIndex)
      ensures data == old(data) && dragId == old(dragId) && detailsOpen == old(detailsOpen)
      ensures selected == old(selected)
    {
      if pageCount == 0 {
        pageIndex := 0;
      }
    }

    /** The body shown for a query (before column facets and paging). */
    function Visible(filterValue: Option<string>): (r: seq<BodyRow<WatchItem>>)
      reads this
      ensures |FilterRows(data, filterValue)| == 0 <==> r == [EmptyRow(11)]
      ensures forall i :: 0 <= i < |r| && r[i].DataRow? ==> Matches(r[i].row, filterValue)
    {
      Body(FilterRows(data, filterValue), |ColumnIds|)
    }
  }

  /**
   * Saving from the dialog stores the draft on the selected symbol and closes the dialog.
   * The dialog is handed the table's selection as its item.
   */
  method SaveFromDialog(table: WatchlistTableState, dialog: DetailsDialog) returns (fx: Effects)
    requires dialog.item.Some? && dialog.item == table.selected
    modifies table
    ensures table.data == SaveNote(old(table.data), old(table.selected).value.symbol, dialog.note)
    ensures !table.detailsOpen
    ensures table.dragId == old(table.dragId) && table.selected == old(table.selected)
    ensures table.pageIndex == old(table.pageIndex) && table.basis == old(table.basis)
  {
    fx := dialog.Save(true);
    table.Apply(fx);
  }
}
