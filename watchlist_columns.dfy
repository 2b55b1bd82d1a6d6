/**
 * The watchlist table's column definitions, all closed over the price
 * basis the percent change is measured against.
 */
module WatchlistColumns {
  import opened Wrappers
  import opened Schema

  /** Column ids in display order. */
  const ColumnIds: seq<string> := ["symbol", "exchange", "sector", "group", "ltp", "changePct",
                                   "rangeDay", "range52w", "volume", "marketCap", "alerts"]

  /** The reference price the change is measured against. */
  datatype PriceBasis = PrevClose | Open

  /** The basis price, falling back to the last traded price when the field is missing. */
  function Base(basis: PriceBasis, item: WatchItem): real {
    match basis
    case PrevClose => item.prevClose.GetOr(item.ltp)
    case Open => item.open.GetOr(item.ltp)
  }

  /** `pctFor`: percent change from the basis price, 0 when that price is 0. */
  function PctFor(basis: PriceBasis, item: WatchItem): (p: real)
    ensures Base(basis, item) == 0.0 ==> p == 0.0
    ensures Base(basis, item) != 0.0 ==> p * Base(basis, item) == (item.ltp - Base(basis, item)) * 100.0
  {
    var base := Base(basis, item);
    if base == 0.0 then 0.0 else (item.ltp - base) / base * 100.0
  }

  /** For a positive basis price the change has the sign of `ltp - base`. */
  lemma PctSign(basis: PriceBasis, item: WatchItem)
    requires Base(basis, item) > 0.0
    ensures PctFor(basis, item) > 0.0 <==> item.ltp > Base(basis, item)
    ensures PctFor(basis, item) < 0.0 <==> item.ltp < Base(basis, item)
    ensures PctFor(basis, item) == 0.0 <==> item.ltp == Base(basis, item)
  {
    var b, p := Base(basis, item), PctFor(basis, item);
    assert p * b == (item.ltp - b) * 100.0;
    if p > 0.0 { assert p * b > 0.0; }
    if p < 0.0 { assert p * b < 0.0; }
  }

  /** A missing basis field makes the change exactly 0. */
  lemma MissingBasisIsFlat(basis: PriceBasis, item: WatchItem)
    requires basis == PrevClose ==> item.prevClose == None
    requires basis == Open ==> item.open == None
    ensures PctFor(basis, item) == 0.0
  {
  }

  /** The header of the change column names the basis. */
  function ChangeTitle(basis: PriceBasis): (t: string)
    ensures |t| > 10 && t[..10] == "Change % (" && t[|t| - 1] == ')'
    ensures t == "Change % (Prev Close)" <==> basis == PrevClose
    ensures t == "Change % (Open)" <==> basis == Open
  {
    match basis
    case PrevClose => "Change % (Prev Close)"
    case Open => "Change % (Open)"
  }

  datatype Tone = Gain | Loss

  /** Colour of the change cell. */
  function ChangeTone(basis: PriceBasis, item: WatchItem): (t: Tone)
    ensures t == Gain <==> PctFor(basis, item) >= 0.0
  {
    if PctFor(basis, item) >= 0.0 then Gain else Loss
  }

  /** Text of the change cell. */
  function ChangeText(basis: PriceBasis, item: WatchItem): string {
    FormatPercent(PctFor(basis, item))
  }

  /** A rising instrument shows a `+` and the gain colour; a flat one neither sign and the gain colour. */
  lemma ChangeCellAgrees(basis: PriceBasis, item: WatchItem)
    requires Base(basis, item) > 0.0
    ensures ChangeText(basis, item)[0] == '+' <==> item.ltp > Base(basis, item)
    ensures ChangeText(basis, item)[0] == '-' <==> item.ltp < Base(basis, item)
    ensures ChangeTone(basis, item) == Gain <==> item.ltp >= Base(basis, item)
  {
    PctSign(basis, item);
    var p := PctFor(basis, item);
    if p == 0.0 {
      FormatPercentZero();
    } else if p > 0.0 {
      assert FormatPercent(p)[0] == '+';
    }
  }

  /** Exchange cell: the item's exchange, or NSE. */
  function ExchangeLabel(item: WatchItem): (s: string)
    ensures item.exchange == None ==> s == "NSE"
    ensures s in {"NSE", "BSE", "MCX", "NFO"}
  {
    match item.exchange.GetOr(NSE)
    case NSE => "NSE"
    case BSE => "BSE"
    case MCX => "MCX"
    case NFO => "NFO"
  }

  /** Group cell: the item's group, or General. */
  function GroupLabel(item: WatchItem): (s: string)
    ensures item.group == None ==> s == "General"
    ensures item.group != None ==> s == item.group.value
  {
    item.group.GetOr("General")
  }

  /** `filterFn` of the sector column. */
  predicate SectorFilter(item: WatchItem, selected: seq<string>) {
    item.sector in selected
  }

  /** `sortingFn` of the market-cap column. */
  function MarketCapCompare(a: WatchItem, b: WatchItem): (c: real)
    ensures c > 0.0 <==> a.marketCap > b.marketCap
    ensures c == 0.0 <==> a.marketCap == b.marketCap
  {
    a.marketCap - b.marketCap
  }

  /** The market-cap comparator is antisymmetric and transitive. */
  lemma MarketCapIsOrder(a: WatchItem, b: WatchItem, c: WatchItem)
    ensures MarketCapCompare(a, b) == -MarketCapCompare(b, a)
    ensures MarketCapCompare(a, b) >= 0.0 && MarketCapCompare(b, c) >= 0.0 ==> MarketCapCompare(a, c) >= 0.0
  {
  }

  /** The Alert badge shows for a truthy `alert`. */
  predicate AlertBadge(item: WatchItem) {
    item.alert == Some(true)
  }

  /** The Note badge shows for a non-empty `note`. */
  predicate NoteBadge(item: WatchItem) {
    item.note.Some? && item.note.value != ""
  }
}
