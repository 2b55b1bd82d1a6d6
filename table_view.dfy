/**
 * The pieces both data tables hand to the table engine: the global
 * search predicate over symbol and name, and the body's empty-state rule.
 */
module TableView {
  import opened Wrappers
  import opened Text

  /** The search text a filter value stands for, lower-cased; an undefined value searches for "". */
  function SearchText(filterValue: Option<string>): string {
    Lower(filterValue.GetOr(""))
  }

  /** The global filter: the lower-cased query occurs in the lower-cased symbol or name. */
  function GlobalMatch(symbol: string, name: string, filterValue: Option<string>): (keep: bool)
    ensures keep <==>
      (exists i :: OccursAt(Lower(symbol), SearchText(filterValue), i)) ||
      (exists i :: OccursAt(Lower(name), SearchText(filterValue), i))
  {
    Contains(Lower(symbol), SearchText(filterValue)) || Contains(Lower(name), SearchText(filterValue))
  }

  /** An empty or undefined query keeps every row. */
  lemma EmptySearchKeepsAll(symbol: string, name: string, filterValue: Option<string>)
    requires filterValue == None || filterValue == Some("")
    ensures GlobalMatch(symbol, name, filterValue)
  {
    assert SearchText(filterValue) == "";
    assert OccursAt(Lower(symbol), "", 0);
  }

  /** The match ignores the case of the query and of the row. */
  lemma MatchIgnoresCase(symbol: string, name: string, q: string)
    ensures GlobalMatch(symbol, name, Some(Lower(q))) == GlobalMatch(symbol, name, Some(q))
    ensures GlobalMatch(Lower(symbol), Lower(name), Some(q)) == GlobalMatch(symbol, name, Some(q))
  {
    LowerTwice(q);
    LowerTwice(symbol);
    LowerTwice(name);
  }

  /** A row is found by its own symbol, in any case. */
  lemma FoundBySymbol(symbol: string, name: string)
    ensures GlobalMatch(symbol, name, Some(symbol))
  {
    assert OccursAt(Lower(symbol), Lower(symbol), 0);
  }

  /** A row of the rendered body. */
  datatype BodyRow<T> = DataRow(row: T) | EmptyRow(colSpan: nat)

  /** One row per visible record, or a single empty-state row spanning every column. */
  function Body<T>(rows: seq<T>, columns: nat): (r: seq<BodyRow<T>>)
    ensures |rows| == 0 <==> |r| == 1 && r[0] == EmptyRow(columns)
    ensures |rows| > 0 ==> |r| == |rows| && forall i :: 0 <= i < |r| ==> r[i] == DataRow(rows[i])
  {
    if |rows| > 0 then seq(|rows|, i requires 0 <= i < |rows| => DataRow(rows[i]))
    else [EmptyRow(columns)]
  }
}
