/**
 * The dashboard's holdings and watchlist tabs: portfolio totals, the
 * per-sector dictionaries filled by a loop, their descending order, and
 * the allocation percentages.
 */
module DashboardAggregates {
  import opened Schema
  import opened Seqs
  import opened HoldingsColumns
  import WatchlistPage

  /** A dictionary entry, `[key, value]`. */
  type Entry = (string, real)

  function Second(e: Entry): real {
    e.1
  }

  /** The keys `key` gives the elements of `xs`, in order. */
  function KeysOf<T>(xs: seq<T>, key: T -> string): seq<string> {
    seq(|xs|, i requires 0 <= i < |xs| => key(xs[i]))
  }

  /** Total weight of the elements whose key is `k`. */
  function GroupSum<T>(xs: seq<T>, key: T -> string, w: T -> real, k: string): real {
    if xs == [] then 0.0
    else GroupSum(xs[..|xs| - 1], key, w, k) + (if key(xs[|xs| - 1]) == k then w(xs[|xs| - 1]) else 0.0)
  }

  /** The dictionary's entries as specified: each key once in order of first insertion, with its total. */
  function Tallied<T>(xs: seq<T>, key: T -> string, w: T -> real): (r: seq<Entry>)
    ensures |r| == |Distinct(KeysOf(xs, key))|
  {
    var ks := Distinct(KeysOf(xs, key));
    seq(|ks|, j requires 0 <= j < |ks| => (ks[j], GroupSum(xs, key, w, ks[j])))
  }

  /** Sum of the dictionary's values for the listed keys. */
  function SumOver(keys: seq<string>, m: map<string, real>): real {
    if keys == [] then 0.0
    else SumOver(keys[..|keys| - 1], m) + (if keys[|keys| - 1] in m then m[keys[|keys| - 1]] else 0.0)
  }

  lemma {:induction false} SumOverFresh(keys: seq<string>, m: map<string, real>, k: string, v: real)
    requires k !in keys
    ensures SumOver(keys, m[k := v]) == SumOver(keys, m)
  {
    if keys != [] {
      SumOverFresh(keys[..|keys| - 1], m, k, v);
    }
  }

  lemma {:induction false} SumOverBump(keys: seq<string>, m: map<string, real>, k: string, d: real)
    requires NoDup(keys) && k in keys && k in m
    ensures SumOver(keys, m[k := m[k] + d]) == SumOver(keys, m) + d
  {
    var init, last := keys[..|keys| - 1], keys[|keys| - 1];
    assert NoDup(init);
    if last == k {
      assert k !in init;
      SumOverFresh(init, m, k, m[k] + d);
    } else {
      assert keys == init + [last];
      SumOverBump(init, m, k, d);
    }
  }

  lemma {:induction false} SumOfEntries(keys: seq<string>, m: map<string, real>, e: seq<Entry>)
    requires |e| == |keys| && forall j :: 0 <= j < |keys| ==> keys[j] in m && e[j] == (keys[j], m[keys[j]])
    ensures Sum(e, Second) == SumOver(keys, m)
  {
    if keys != [] {
      SumOfEntries(keys[..|keys| - 1], m, e[..|e| - 1]);
    }
  }

  /** The keys of `p` in order of first occurrence, as the dictionary inserts them. */
  function KeysSeen<T>(p: seq<T>, key: T -> string): seq<string> {
    if p == [] then []
    else
      var ks := KeysSeen(p[..|p| - 1], key);
      if key(p[|p| - 1]) in ks then ks else ks + [key(p[|p| - 1])]
  }

  /** The insertion order is the distinct keys in order. */
  lemma {:induction false} KeysSeenDistinct<T>(p: seq<T>, key: T -> string)
    ensures KeysSeen(p, key) == Distinct(KeysOf(p, key))
  {
    if p != [] {
      var ks := KeysOf(p, key);
      assert ks[..|p| - 1] == KeysOf(p[..|p| - 1], key);
      assert ks[|p| - 1] == key(p[|p| - 1]);
      KeysSeenDistinct(p[..|p| - 1], key);
    }
  }

  /** No key is inserted twice. */
  lemma {:induction false} KeysSeenNoDup<T>(p: seq<T>, key: T -> string)
    ensures NoDup(KeysSeen(p, key))
  {
    if p != [] {
      KeysSeenNoDup(p[..|p| - 1], key);
    }
  }

  /** A key never inserted collects nothing. */
  lemma {:induction false} GroupSumAbsent<T>(p: seq<T>, key: T -> string, w: T -> real, k: string)
    requires k !in KeysSeen(p, key)
    ensures GroupSum(p, key, w, k) == 0.0
  {
    if p != [] {
      GroupSumAbsent(p[..|p| - 1], key, w, k);
    }
  }

  /** The running totals of the listed keys over the elements `p`. */
  function TotalsOf<T>(p: seq<T>, key: T -> string, w: T -> real, keys: seq<string>): map<string, real> {
    map k | k in keys :: GroupSum(p, key, w, k)
  }

  /** What the loop knows after the elements `p`: the keys so far, each with its running total. */
  ghost predicate TallyInv<T>(p: seq<T>, key: T -> string, w: T -> real, keys: seq<string>, totals: map<string, real>) {
    && keys == KeysSeen(p, key)
    && totals == TotalsOf(p, key, w, keys)
    && SumOver(keys, totals) == Sum(p, w)
  }

  /** One turn of the loop for a key already present: `bySector[k] = bySector[k] + w`. */
  lemma TallyBump<T>(p: seq<T>, x: T, key: T -> string, w: T -> real, keys: seq<string>, totals: map<string, real>)
    requires TallyInv(p, key, w, keys, totals) && key(x) in totals
    ensures TallyInv(p + [x], key, w, keys, totals[key(x) := totals[key(x)] + w(x)])
  {
    assert (p + [x])[..|p|] == p;
    BumpTotals(p, x, key, w, keys, totals);
    BumpSum(p, x, key, w, keys, totals);
  }

  /** One turn of the loop for a new key: `bySector[k] = 0 + w`, and `k` joins the keys. */
  lemma TallyFresh<T>(p: seq<T>, x: T, key: T -> string, w: T -> real, keys: seq<string>, totals: map<string, real>)
    requires TallyInv(p, key, w, keys, totals) && key(x) !in totals
    ensures TallyInv(p + [x], key, w, keys + [key(x)], totals[key(x) := 0.0 + w(x)])
  {
    assert (p + [x])[..|p|] == p;
    FreshTotals(p, x, key, w, keys, totals);
    FreshSum(p, x, key, w, keys, totals);
  }

  /** The totals after adding one element to its key's running total. */
  lemma BumpTotals<T>(p: seq<T>, x: T, key: T -> string, w: T -> real, keys: seq<string>, totals: map<string, real>)
    requires totals == TotalsOf(p, key, w, keys) && key(x) in totals
    ensures totals[key(x) := totals[key(x)] + w(x)] == TotalsOf(p + [x], key, w, keys)
  {
    GroupSumSnoc(p, x, key, w);
  }

  /** The sum of the totals after adding one element to its key's running total. */
  lemma BumpSum<T>(p: seq<T>, x: T, key: T -> string, w: T -> real, keys: seq<string>, totals: map<string, real>)
    requires keys == KeysSeen(p, key) && key(x) in keys && key(x) in totals
    requires SumOver(keys, totals) == Sum(p, w)
    ensures SumOver(keys, totals[key(x) := totals[key(x)] + w(x)]) == Sum(p + [x], w)
  {
    KeysSeenNoDup(p, key);
    SumOverBump(keys, totals, key(x), w(x));
    SumSnoc(p, x, w);
  }

  /** The totals after a new key starts at the element's weight. */
  lemma FreshTotals<T>(p: seq<T>, x: T, key: T -> string, w: T -> real, keys: seq<string>, totals: map<string, real>)
    requires TallyInv(p, key, w, keys, totals) && key(x) !in totals
    ensures totals[key(x) := 0.0 + w(x)] == TotalsOf(p + [x], key, w, keys + [key(x)])
  {
    GroupSumSnoc(p, x, key, w);
    GroupSumAbsent(p, key, w, key(x));
  }

  /** The sum of the totals after a new key starts at the element's weight. */
  lemma FreshSum<T>(p: seq<T>, x: T, key: T -> string, w: T -> real, keys: seq<string>, totals: map<string, real>)
    requires key(x) !in keys && SumOver(keys, totals) == Sum(p, w)
    ensures SumOver(keys + [key(x)], totals[key(x) := 0.0 + w(x)]) == Sum(p + [x], w)
  {
    SumOverFresh(keys, totals, key(x), w(x));
    assert (keys + [key(x)])[..|keys|] == keys;
    SumSnoc(p, x, w);
  }

  /** The running sum after one more element. */
  lemma SumSnoc<T>(p: seq<T>, x: T, w: T -> real)
    ensures Sum(p + [x], w) == Sum(p, w) + w(x)
  {
    assert (p + [x])[..|p|] == p;
  }

  /** The running totals after one more element. */
  lemma GroupSumSnoc<T>(p: seq<T>, x: T, key: T -> string, w: T -> real)
    ensures forall k ::
      GroupSum(p + [x], key, w, k) == GroupSum(p, key, w, k) + (if key(x) == k then w(x) else 0.0)
  {
    assert (p + [x])[..|p|] == p;
  }

  /** The dictionary the loop builds: keys in insertion order, and the value under each. */
  datatype Dict = Dict(keys: seq<string>, totals: map<string, real>)

  /** One turn of the loop: add `v` under `k`, inserting `k` at 0 when it is new. */
  function Step(d: Dict, k: string, v: real): Dict {
    if k in d.totals then Dict(d.keys, d.totals[k := d.totals[k] + v])
    else Dict(d.keys + [k], d.totals[k := 0.0 + v])
  }

  /** The dictionary after the loop has run over `p`. */
  function Run<T>(p: seq<T>, key: T -> string, w: T -> real): Dict {
    if p == [] then Dict([], map[])
    else Step(Run(p[..|p| - 1], key, w), key(p[|p| - 1]), w(p[|p| - 1]))
  }

  /** After any prefix, the loop's dictionary satisfies the invariant. */
  lemma {:induction false} RunMeetsInv<T>(p: seq<T>, key: T -> string, w: T -> real)
    ensures TallyInv(p, key, w, Run(p, key, w).keys, Run(p, key, w).totals)
  {
    if p == [] {
      assert TotalsOf(p, key, w, []) == map[];
    } else {
      var q, x := p[..|p| - 1], p[|p| - 1];
      assert p == q + [x];
      RunMeetsInv(q, key, w);
      var d := Run(q, key, w);
      if key(x) in d.totals {
        TallyBump(q, x, key, w, d.keys, d.totals);
      } else {
        TallyFresh(q, x, key, w, d.keys, d.totals);
      }
    }
  }

  /** `Object.entries`: the pairs in insertion order. */
  function Entries(d: Dict): (r: seq<Entry>)
    requires forall k :: k in d.keys ==> k in d.totals
    ensures |r| == |d.keys| && forall j :: 0 <= j < |r| ==> r[j] == (d.keys[j], d.totals[d.keys[j]])
  {
    seq(|d.keys|, j requires 0 <= j < |d.keys| => (d.keys[j], d.totals[d.keys[j]]))
  }

  /** The entries of the finished dictionary are the specified tally, and they add up to the total weight. */
  lemma RunEntries<T>(xs: seq<T>, key: T -> string, w: T -> real)
    ensures forall k :: k in Run(xs, key, w).keys ==> k in Run(xs, key, w).totals
    ensures Entries(Run(xs, key, w)) == Tallied(xs, key, w)
    ensures Sum(Entries(Run(xs, key, w)), Second) == Sum(xs, w)
  {
    var d := Run(xs, key, w);
    RunMeetsInv(xs, key, w);
    KeysSeenDistinct(xs, key);
    SumOfEntries(d.keys, d.totals, Entries(d));
  }

  /**
   * The `for` loop filling a dictionary: add each element's weight under
   * its key. `keys` records the dictionary's insertion order, which is
   * the order `Object.entries` reports.
   */
  method Tally<T>(xs: seq<T>, key: T -> string, w: T -> real) returns (entries: seq<Entry>)
    ensures entries == Tallied(xs, key, w)
    ensures Sum(entries, Second) == Sum(xs, w)
  {
    var keys: seq<string> := [];
    var totals: map<string, real> := map[];
    for i := 0 to |xs|
      invariant Dict(keys, totals) == Run(xs[..i], key, w)
    {
      var k := key(xs[i]);
      if k in totals {
        totals := totals[k := totals[k] + w(xs[i])];
      } else {
        keys := keys + [k];
        totals := totals[k := 0.0 + w(xs[i])];
      }
      assert xs[..i + 1][..i] == xs[..i];
    }
    assert xs[..|xs|] == xs;
    RunEntries(xs, key, w);
    entries := Entries(Dict(keys, totals));
  }

  predicate SortedDesc(s: seq<Entry>) {
    forall i, j :: 0 <= i < j < |s| ==> s[i].1 >= s[j].1
  }

  /** Appending an entry no larger than any other keeps the order. */
  lemma AppendSmallest(r: seq<Entry>, last: Entry)
    requires SortedDesc(r) && forall x :: x in r ==> x.1 >= last.1
    ensures SortedDesc(r + [last])
  {
    assert forall i :: 0 <= i < |r| ==> r[i] in r;
  }

  /** Insert `e` after every entry whose value is at least as large. */
  function Insert(s: seq<Entry>, e: Entry): (r: seq<Entry>)
    ensures multiset(r) == multiset(s) + multiset{e}
  {
    if s == [] then [e]
    else
      var init, last := s[..|s| - 1], s[|s| - 1];
      assert s == init + [last];
      if last.1 >= e.1 then s + [e] else Insert(init, e) + [last]
  }

  /** Inserting into a sorted list keeps it sorted. */
  lemma {:induction false} InsertSorted(s: seq<Entry>, e: Entry)
    requires SortedDesc(s)
    ensures SortedDesc(Insert(s, e))
  {
    if s != [] {
      var init, last := s[..|s| - 1], s[|s| - 1];
      if last.1 < e.1 {
        InsertSorted(init, e);
        var r := Insert(init, e);
        forall x | x in r ensures x.1 >= last.1 {
          assert x in multiset(init) + multiset{e};
        }
        AppendSmallest(r, last);
      }
    }
  }

  /** Inserting adds the entry's value to the sum. */
  lemma {:induction false} InsertSum(s: seq<Entry>, e: Entry)
    ensures Sum(Insert(s, e), Second) == Sum(s, Second) + e.1
  {
    if s != [] {
      var init, last := s[..|s| - 1], s[|s| - 1];
      if last.1 < e.1 {
        InsertSum(init, e);
        var r := Insert(init, e);
        assert (r + [last])[..|r|] == r;
      } else {
        assert (s + [e])[..|s|] == s;
      }
    }
  }

  /** `entries.sort((a, b) => b[1] - a[1])`: a sort by descending value. */
  function SortDesc(s: seq<Entry>): (r: seq<Entry>)
    ensures SortedDesc(r)
    ensures multiset(r) == multiset(s)
    ensures Sum(r, Second) == Sum(s, Second)
  {
    if s == [] then []
    else
      var init, last := s[..|s| - 1], s[|s| - 1];
      assert s == init + [last];
      InsertSorted(SortDesc(init), last);
      InsertSum(SortDesc(init), last);
      Insert(SortDesc(init), last)
  }

  /** `Math.round` */
  function Round(x: real): int {
    (x + 0.5).Floor
  }

  lemma RoundMonotone(x: real, y: real)
    requires x >= y
    ensures Round(x) >= Round(y)
  {
  }

  /** Share of a sector as a percent rounded to one decimal place; 0 when the total is 0. */
  function Share(value: real, total: real): (p: real)
    ensures total == 0.0 ==> p == 0.0
  {
    if total != 0.0 then Round(value / total * 1000.0) as real / 10.0 else 0.0
  }

  /** Over a positive total, a larger value never gets a smaller share. */
  lemma ShareMonotone(v1: real, v2: real, total: real)
    requires total > 0.0 && v1 >= v2
    ensures Share(v1, total) >= Share(v2, total)
  {
    assert v1 / total >= v2 / total by {
      assert v1 / total * total == v1 && v2 / total * total == v2;
    }
    RoundMonotone(v1 / total * 1000.0, v2 / total * 1000.0);
  }

  /** A share of a non-negative part of a positive total lies between 0 and 100. */
  lemma ShareBounds(value: real, total: real)
    requires total > 0.0 && 0.0 <= value <= total
    ensures 0.0 <= Share(value, total) <= 100.0
  {
    assert 0.0 <= value / total <= 1.0 by {
      assert value / total * total == value;
    }
    RoundMonotone(value / total * 1000.0, 0.0);
    RoundMonotone(1000.0, value / total * 1000.0);
  }

  function Sector(h: Holding): string {
    h.sector
  }

  function TotalValue(hs: seq<Holding>): real {
    Sum(hs, Value)
  }

  function TotalPnl(hs: seq<Holding>): real {
    Sum(hs, Pnl)
  }

  function Cost(h: Holding): real {
    h.qty as real * h.avgPrice
  }

  /** Profit is what the holdings are worth less what they cost. */
  lemma {:induction false} PnlIsValueLessCost(hs: seq<Holding>)
    ensures TotalPnl(hs) == TotalValue(hs) - Sum(hs, Cost)
  {
    if hs != [] {
      PnlIsValueLessCost(hs[..|hs| - 1]);
    }
  }

  datatype SectorShare = SectorShare(name: string, percent: real)

  datatype HoldingsSummary = HoldingsSummary(
    totalValue: real,
    totalPnl: real,
    positions: nat,
    sectorTotal: real,
    sectorEntries: seq<Entry>,
    sectorView: seq<SectorShare>)

  /** The holdings tab's figures. */
  method HoldingsTab(hs: seq<Holding>) returns (s: HoldingsSummary)
    ensures s.totalValue == TotalValue(hs) && s.totalPnl == TotalPnl(hs) && s.positions == |hs|
    ensures s.sectorTotal == s.totalValue
    ensures multiset(s.sectorEntries) == multiset(Tallied(hs, Sector, Value))
    ensures SortedDesc(s.sectorEntries)
    ensures |s.sectorView| == |s.sectorEntries|
    ensures forall j :: 0 <= j < |s.sectorView| ==>
      s.sectorView[j] == SectorShare(s.sectorEntries[j].0, Share(s.sectorEntries[j].1, s.sectorTotal))
    ensures s.sectorTotal == 0.0 ==> forall j :: 0 <= j < |s.sectorView| ==> s.sectorView[j].percent == 0.0
    ensures s.sectorTotal > 0.0 ==> forall i, j :: 0 <= i < j < |s.sectorView| ==>
      s.sectorView[i].percent >= s.sectorView[j].percent
  {
    var entries := Tally(hs, Sector, Value);
    var total := Sum(entries, Second);
    var sorted := SortDesc(entries);
    var view := seq(|sorted|, j requires 0 <= j < |sorted| => SectorShare(sorted[j].0, Share(sorted[j].1, total)));
    if total > 0.0 {
      forall i, j | 0 <= i < j < |view| ensures view[i].percent >= view[j].percent {
        ShareMonotone(sorted[i].1, sorted[j].1, total);
      }
    }
    s := HoldingsSummary(TotalValue(hs), TotalPnl(hs), |hs|, total, sorted, view);
  }

  function One<T>(x: T): real {
    1.0
  }

  lemma {:induction false} SumOfOnes<T>(xs: seq<T>)
    ensures Sum(xs, One) == |xs| as real
  {
    if xs != [] {
      SumOfOnes(xs[..|xs| - 1]);
    }
  }

  function ItemSector(i: WatchItem): string {
    i.sector
  }

  /** The dashboard's watchlist tab: the shared summary plus sector counts, most common sector first. */
  method WatchlistTab(items: seq<WatchItem>) returns (summary: WatchlistPage.Summary, sectorView: seq<Entry>)
    ensures summary == WatchlistPage.Summarize(items)
    ensures multiset(sectorView) == multiset(Tallied(items, ItemSector, One))
    ensures SortedDesc(sectorView)
    ensures Sum(sectorView, Second) == |items| as real
  {
    summary := WatchlistPage.Summarize(items);
    var counts := Tally(items, ItemSector, One);
    SumOfOnes(items);
    sectorView := SortDesc(counts);
  }
}
