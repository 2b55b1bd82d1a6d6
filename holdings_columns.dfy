/**
 * The holdings table's column definitions: the derived value and P&L
 * cells, their comparators, and the sector facet predicate.
 */
module HoldingsColumns {
  import opened Schema

  /** Column ids in display order. */
  const ColumnIds: seq<string> := ["symbol", "sector", "qty", "avgPrice", "ltp", "value", "pnl"]

  /** Market value of a position. */
  function Value(h: Holding): real {
    h.qty as real * h.ltp
  }

  /** Unrealised profit or loss of a position. */
  function Pnl(h: Holding): real {
    (h.ltp - h.avgPrice) * h.qty as real
  }

  datatype Tone = Gain | Loss

  /** Colour of the P&L cell. */
  function PnlTone(h: Holding): (t: Tone)
    ensures t == Gain <==> Pnl(h) >= 0.0
  {
    if (h.ltp - h.avgPrice) * h.qty as real >= 0.0 then Gain else Loss
  }

  /** For a long position the P&L colour is decided by the price alone. */
  lemma ToneOfLongPosition(h: Holding)
    requires h.qty > 0
    ensures PnlTone(h) == Gain <==> h.ltp >= h.avgPrice
  {
    if h.ltp < h.avgPrice {
      assert (h.ltp - h.avgPrice) * h.qty as real < 0.0;
    }
  }

  /** `sortingFn` of the value column. */
  function ValueCompare(a: Holding, b: Holding): (c: real)
    ensures c > 0.0 <==> Value(a) > Value(b)
    ensures c == 0.0 <==> Value(a) == Value(b)
    ensures c < 0.0 <==> Value(a) < Value(b)
  {
    a.qty as real * a.ltp - b.qty as real * b.ltp
  }

  /** `sortingFn` of the P&L column. */
  function PnlCompare(a: Holding, b: Holding): (c: real)
    ensures c > 0.0 <==> Pnl(a) > Pnl(b)
    ensures c == 0.0 <==> Pnl(a) == Pnl(b)
    ensures c < 0.0 <==> Pnl(a) < Pnl(b)
  {
    (a.ltp - a.avgPrice) * a.qty as real - (b.ltp - b.avgPrice) * b.qty as real
  }

  /** Both comparators are antisymmetric and order rows like a total preorder. */
  lemma ComparatorsAreOrders(a: Holding, b: Holding, c: Holding)
    ensures ValueCompare(a, b) == -ValueCompare(b, a)
    ensures PnlCompare(a, b) == -PnlCompare(b, a)
    ensures ValueCompare(a, b) >= 0.0 && ValueCompare(b, c) >= 0.0 ==> ValueCompare(a, c) >= 0.0
    ensures PnlCompare(a, b) >= 0.0 && PnlCompare(b, c) >= 0.0 ==> PnlCompare(a, c) >= 0.0
  {
  }

  /** `filterFn` of the sector column: the row's sector is one of the selected values. */
  predicate SectorFilter(h: Holding, selected: seq<string>) {
    h.sector in selected
  }

  /** The seed holdings the table starts from. */
  const Seed: seq<Holding> := [
    Holding("TCS", "Tata Consultancy Services", "IT", 25, 3600.0, 3875.0),
    Holding("INFY", "Infosys Ltd", "IT", 40, 1450.0, 1525.0),
    Holding("HDFCBANK", "HDFC Bank", "Banking", 30, 1520.0, 1602.0),
    Holding("RELIANCE", "Reliance Industries", "Energy", 18, 2450.0, 2512.0),
    Holding("ITC", "ITC Ltd", "FMCG", 120, 440.0, 455.0),
    Holding("SBIN", "State Bank of India", "Banking", 60, 630.0, 648.0),
    Holding("TATASTEEL", "Tata Steel", "Metals", 90, 112.0, 118.0),
    Holding("WIPRO", "Wipro Ltd", "IT", 75, 420.0, 408.0)]

  /** With the seed rows, TCS's P&L of 6875 ranks above INFY's 3000. */
  lemma SeedPnlOrder()
    ensures Seed[0].symbol == "TCS" && Seed[1].symbol == "INFY"
    ensures Pnl(Seed[0]) == 6875.0 && Pnl(Seed[1]) == 3000.0
    ensures PnlCompare(Seed[0], Seed[1]) > 0.0
    ensures PnlTone(Seed[0]) == Gain && PnlTone(Seed[7]) == Loss
  {
  }
}
