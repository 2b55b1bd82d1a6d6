/**
 * The row records of the dashboard (`Holding`, `WatchItem`) and the
 * percent formatter shared by the watchlist views.
 */
module Schema {
  import opened Wrappers

  /** A position: `qty` units bought at `avgPrice`, now quoted at `ltp`. */
  datatype Holding = Holding(
    symbol: string,
    name: string,
    sector: string,
    qty: int,
    avgPrice: real,
    ltp: real)

  datatype Exchange = NSE | BSE | MCX | NFO

  /** A tracked instrument; `None` stands for a field left undefined. */
  datatype WatchItem = WatchItem(
    symbol: string,
    name: string,
    sector: string,
    ltp: real,
    changePct: Option<real>,
    volume: real,
    marketCap: real,
    dayHigh: real,
    dayLow: real,
    week52High: real,
    week52Low: real,
    open: Option<real>,
    prevClose: Option<real>,
    exchange: Option<Exchange>,
    oi: Option<real>,
    group: Option<string>,
    alert: Option<bool>,
    note: Option<string>)

  predicate IsDigit(c: char) {
    '0' <= c <= '9'
  }

  function DigitChar(d: nat): (c: char)
    requires d < 10
    ensures IsDigit(c) && DigitValue(c) == d
  {
    ('0' as int + d) as char
  }

  function DigitValue(c: char): nat
    requires IsDigit(c)
  {
    c as int - '0' as int
  }

  predicate AllDigits(s: string) {
    forall i :: 0 <= i < |s| ==> IsDigit(s[i])
  }

  /** Decimal notation of `n`, most significant digit first, no leading zeros. */
  function Decimal(n: nat): (s: string)
    ensures |s| >= 1 && AllDigits(s)
    ensures |s| > 1 ==> s[0] != '0'
  {
    if n < 10 then [DigitChar(n)] else Decimal(n / 10) + [DigitChar(n % 10)]
  }

  /** The number a string of digits denotes. */
  function DecimalValue(s: string): nat
    requires AllDigits(s)
  {
    if s == [] then 0 else 10 * DecimalValue(s[..|s| - 1]) + DigitValue(s[|s| - 1])
  }

  lemma {:induction false} DecimalRoundTrip(n: nat)
    ensures DecimalValue(Decimal(n)) == n
  {
    if n >= 10 {
      var s := Decimal(n);
      assert s[..|s| - 1] == Decimal(n / 10);
      DecimalRoundTrip(n / 10);
    }
  }

  /** `Math.abs` */
  function Abs(x: real): real {
    if x < 0.0 then -x else x
  }

  /** The integer `k` `toFixed(2)` shows for `|x|`: nearest to `100 |x|`, the larger one on a tie. */
  function Cents(x: real): (k: nat)
  {
    var f := (Abs(x) * 100.0 + 0.5).Floor;
    assert f >= 0;
    f
  }

  /** Two-digit fraction of `k / 100`. */
  function Fraction(k: nat): (s: string)
    ensures |s| == 2 && AllDigits(s)
  {
    [DigitChar(k / 10 % 10), DigitChar(k % 10)]
  }

  /** `x.toFixed(2)`: a `-` for negative `x`, then the digits of `|x|` rounded to hundredths. */
  function ToFixed2(x: real): string
  {
    var k := Cents(x);
    (if x < 0.0 then "-" else "") + Decimal(k / 100) + "." + Fraction(k)
  }

  /** `formatPercent(n)`, schema.ts. */
  function FormatPercent(n: real): (r: string)
    ensures |r| >= 5
    ensures r[0] == '+' <==> n > 0.0
    ensures n < 0.0 ==> r[0] == '-'
    ensures r[|r| - 1] == '%' && r[|r| - 4] == '.'
    ensures IsDigit(r[|r| - 3]) && IsDigit(r[|r| - 2])
    ensures SignLength(r) < |r| - 4 && forall k :: SignLength(r) <= k < |r| - 4 ==> IsDigit(r[k])
  {
    var sign := if n > 0.0 then "+" else "";
    var f := ToFixed2(n);
    var r := sign + f + "%";
    var lead := sign + (if n < 0.0 then "-" else "");
    var whole := Decimal(Cents(n) / 100);
    assert r == lead + whole + "." + Fraction(Cents(n)) + "%";
    assert f[|f| - 3] == '.';
    assert IsDigit(whole[0]);
    assert SignLength(r) == |lead|;
    assert forall k :: |lead| <= k < |r| - 4 ==> r[k] == whole[k - |lead|];
    r
  }

  lemma FormatPercentZero()
    ensures FormatPercent(0.0) == "0.00%"
  {
    assert Cents(0.0) == 0;
  }

  /** The value a formatted percent shows, in hundredths, signed. */
  function ShownHundredths(n: real): int {
    if n < 0.0 then -(Cents(n) as int) else Cents(n)
  }

  /** The shown value is `n` rounded to the nearest hundredth. */
  lemma ShownIsNearest(n: real)
    ensures Abs(ShownHundredths(n) as real - 100.0 * n) <= 0.5
  {
  }

  lemma TwoDigits(k: nat)
    ensures k % 100 == 10 * (k / 10 % 10) + k % 10
  {
    var q, r := k / 10, k % 10;
    var p, t := q / 10, q % 10;
    assert k == 10 * q + r && 0 <= r < 10;
    assert q == 10 * p + t && 0 <= t < 10;
    var m := 10 * t + r;
    assert k == 100 * p + m && 0 <= m < 100;
    ModOfSplit(k, p, m);
  }

  lemma ModOfSplit(k: nat, p: int, m: int)
    requires k == 100 * p + m && 0 <= m < 100
    ensures k % 100 == m
  {
    assert k == 100 * (k / 100) + k % 100;
  }

  /** Length of a leading `+` or `-`. */
  function SignLength(s: string): nat
    requires s != []
  {
    if s[0] == '-' || s[0] == '+' then 1 else 0
  }

  /** The hundredths `whole.frac` denotes, when both parts are digits. */
  function ParseFixed(whole: string, frac: string): Option<nat>
  {
    if whole == [] || !AllDigits(whole) || !AllDigits(frac) then None
    else Some(100 * DecimalValue(whole) + DecimalValue(frac))
  }

  /** Reads back a string of the form `[+|-]digits.dd%`, in hundredths. */
  function ParsePercent(s: string): Option<int>
  {
    if |s| < 5 || s[|s| - 1] != '%' || s[|s| - 4] != '.' then None
    else
      match ParseFixed(s[SignLength(s)..|s| - 4], s[|s| - 3..|s| - 1])
      case None => None
      case Some(v) => Some(if s[0] == '-' then -(v as int) else v)
  }

  /** Parsing reads the three parts of a well-shaped percent back. */
  lemma ParseShape(r: string, sign: string, whole: string, frac: string)
    requires sign == "" || sign == "+" || sign == "-"
    requires |whole| >= 1 && AllDigits(whole) && |frac| == 2 && AllDigits(frac)
    requires r == sign + whole + "." + frac + "%"
    ensures var v := 100 * DecimalValue(whole) + DecimalValue(frac);
      ParsePercent(r) == Some(if sign == "-" then -(v as int) else v)
  {
    ShapeParts(sign, whole, frac);
    ParseOfParts(r, |sign|, whole, frac);
  }

  lemma ShapeParts(sign: string, whole: string, frac: string)
    requires sign == "" || sign == "+" || sign == "-"
    requires |whole| >= 1 && AllDigits(whole) && |frac| == 2 && AllDigits(frac)
    ensures var r := sign + whole + "." + frac + "%";
      && |r| >= 5 && r[|r| - 1] == '%' && r[|r| - 4] == '.'
      && SignLength(r) == |sign| && |sign| <= |r| - 4
      && r[|sign|..|r| - 4] == whole
      && r[|r| - 3..|r| - 1] == frac
      && ((r[0] == '-') <==> (sign == "-"))
  {
    var r := sign + whole + "." + frac + "%";
    assert r[0] == if sign == "" then whole[0] else sign[0];
    assert IsDigit(whole[0]);
  }

  lemma ParseOfParts(r: string, n: nat, whole: string, frac: string)
    requires |r| >= 5 && r[|r| - 1] == '%' && r[|r| - 4] == '.'
    requires SignLength(r) == n && n <= |r| - 4 && r[n..|r| - 4] == whole && r[|r| - 3..|r| - 1] == frac
    requires |whole| >= 1 && AllDigits(whole) && AllDigits(frac)
    ensures var v := 100 * DecimalValue(whole) + DecimalValue(frac);
      ParsePercent(r) == Some(if r[0] == '-' then -(v as int) else v)
  {
  }

  lemma FractionValue(k: nat)
    ensures DecimalValue(Fraction(k)) == k % 100
  {
    var f := Fraction(k);
    assert f[..1] == [DigitChar(k / 10 % 10)];
    assert f[..1][..0] == [];
    assert DecimalValue(f[..1]) == k / 10 % 10;
    assert DecimalValue(f) == 10 * (k / 10 % 10) + k % 10;
    TwoDigits(k);
  }

  /** The sign `formatPercent` shows: `+` above zero, `-` below, nothing at zero. */
  function SignText(n: real): string {
    if n > 0.0 then "+" else if n < 0.0 then "-" else ""
  }

  /** The shown value is negative exactly when the sign is a minus. */
  lemma ShownSigned(n: real)
    ensures ShownHundredths(n) == if SignText(n) == "-" then -(Cents(n) as int) else Cents(n)
  {
    if n > 0.0 {
      assert SignText(n)[0] == '+';
    }
  }

  /** The three parts `formatPercent` puts together. */
  lemma FormatParts(n: real)
    ensures FormatPercent(n) == SignText(n) + Decimal(Cents(n) / 100) + "." + Fraction(Cents(n)) + "%"
  {
  }

  /** Parsing the rendering of `k` hundredths with a sign gives `k` back, negated after a minus. */
  lemma ParseCents(r: string, k: nat, sign: string)
    requires sign == "" || sign == "+" || sign == "-"
    requires r == sign + Decimal(k / 100) + "." + Fraction(k) + "%"
    ensures ParsePercent(r) == Some(if sign == "-" then -(k as int) else k)
  {
    var whole, frac := Decimal(k / 100), Fraction(k);
    DecimalRoundTrip(k / 100);
    FractionValue(k);
    ParseShape(r, sign, whole, frac);
  }

  /** Round trip: parsing a formatted percent gives back the value shown. */
  lemma FormatParse(n: real)
    ensures ParsePercent(FormatPercent(n)) == Some(ShownHundredths(n))
  {
    FormatParts(n);
    ParseCents(FormatPercent(n), Cents(n), SignText(n));
    ShownSigned(n);
  }

}
