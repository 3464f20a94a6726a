/** The option scanner of the backend API: the 0-100 opportunity score, the
    filters `run_scan` applies to expirations, strikes and quotes, the
    ranking of the results and the covered-call lot count of the portfolio
    summary. Market data comes from an abstract `Market`; any of its calls
    may raise, which `run_scan` catches per symbol. */
module Scanner {
  import opened Base

  // -------------------------------------------------------------- the score

  /** `option_data.get(...)` for the fields the score reads; None is a
      missing key or a None value. */
  datatype Quote = Quote(bid: Option<real>, ask: Option<real>, iv: Option<real>,
                         delta: Option<real>, theta: Option<real>)

  function IvBonus(iv: Option<real>): (b: int)
    ensures b == 20 <==> Nonzero(iv) && iv.value > 0.5
    ensures b == 10 <==> Nonzero(iv) && 0.3 < iv.value <= 0.5
    ensures b == 0 <==> !Nonzero(iv) || iv.value <= 0.3
  {
    if !Nonzero(iv) then 0
    else if iv.value > 0.5 then 20
    else if iv.value > 0.3 then 10
    else 0
  }

  function DeltaBonus(delta: Option<real>): (b: int)
    ensures b == 15 <==> Nonzero(delta) && 0.20 <= Abs(delta.value) <= 0.30
    ensures b == 10 <==> Nonzero(delta) && 0.15 <= Abs(delta.value) <= 0.35 && !(0.20 <= Abs(delta.value) <= 0.30)
    ensures b == 0 <==> !Nonzero(delta) || !(0.15 <= Abs(delta.value) <= 0.35)
  {
    if !Nonzero(delta) then 0
    else if 0.20 <= Abs(delta.value) <= 0.30 then 15
    else if 0.15 <= Abs(delta.value) <= 0.35 then 10
    else 0
  }

  function DteBonus(dte: int): (b: int)
    ensures b == 15 <==> 30 <= dte <= 45
    ensures b == 10 <==> (21 <= dte < 30 || 45 < dte <= 50)
    ensures b == 0 <==> (dte < 21 || dte > 50)
  {
    if 30 <= dte <= 45 then 15
    else if 21 <= dte <= 50 then 10
    else 0
  }

  /** Only counted when bid and ask are both truthy and ask is positive. */
  function SpreadBonus(bid: Option<real>, ask: Option<real>): (b: int)
    ensures b != 0 ==> Nonzero(bid) && Nonzero(ask) && ask.value > 0.0
    ensures b == 10 <==> Nonzero(bid) && Nonzero(ask) && ask.value > 0.0 && (ask.value - bid.value) / ask.value < 0.05
    ensures b == 5 <==> Nonzero(bid) && Nonzero(ask) && ask.value > 0.0 &&
                        0.05 <= (ask.value - bid.value) / ask.value < 0.10
  {
    if Nonzero(bid) && Nonzero(ask) && ask.value > 0.0 then
      var spread := (ask.value - bid.value) / ask.value;
      if spread < 0.05 then 10 else if spread < 0.10 then 5 else 0
    else 0
  }

  /** The base score plus every bonus, before clamping. */
  function RawScore(q: Quote, dte: int): int {
    50 + IvBonus(q.iv) + DeltaBonus(q.delta) + DteBonus(dte) + SpreadBonus(q.bid, q.ask)
  }

  /** `calculate_opportunity_score` of the scanner: the raw score clamped to
      [0, 100]. No bonus is negative, so it never drops below the base. */
  function Score(q: Quote, dte: int): (r: int)
    ensures 50 <= r <= 100
    ensures r == Min(100, RawScore(q, dte))
  {
    Min(100, Max(0, RawScore(q, dte)))
  }

  function Max(a: int, b: int): int {
    if a >= b then a else b
  }

  /** The clamp is needed: every bonus at its top tier sums to 110. */
  lemma RawScoreCanExceed100()
    ensures var q := Quote(Some(1.0), Some(1.0), Some(0.6), Some(-0.25), None);
      RawScore(q, 35) == 110 && Score(q, 35) == 100
  {
  }

  /** A higher implied volatility never lowers the score. */
  lemma ScoreMonotoneInIv(q: Quote, dte: int, iv1: real, iv2: real)
    requires 0.0 < iv1 <= iv2
    ensures Score(q.(iv := Some(iv1)), dte) <= Score(q.(iv := Some(iv2)), dte)
  {
    assert IvBonus(Some(iv1)) <= IvBonus(Some(iv2));
  }

  /** A delta of the same magnitude scores the same for puts and calls. */
  lemma ScoreIgnoresDeltaSign(q: Quote, dte: int, d: real)
    ensures Score(q.(delta := Some(d)), dte) == Score(q.(delta := Some(-d)), dte)
  {
    assert Abs(d) == Abs(-d);
  }

  // ------------------------------------------------------------------- scan

  datatype ScanRequest = ScanRequest(symbols: seq<string>, strategy: string,
                                     minDte: int, maxDte: int, minDelta: real, maxDelta: real)

  /** The brokerage service behind the scan. `Err` is an exception;
      `daysTo` is None when an expiration does not parse as a date. */
  datatype Market = Market(
    connected: bool,
    stockPrice: string -> Result<Option<real>>,
    expirations: string -> Result<seq<string>>,
    daysTo: string -> Option<int>,
    strikes: (string, string) -> Result<seq<real>>,
    optionData: (string, string, real, char) -> Result<Option<Quote>>)

  datatype Row = Row(symbol: string, strike: real, expiry: string, dte: int, optionType: string,
                     bid: Option<real>, ask: Option<real>, iv: Option<real>, delta: Option<real>,
                     theta: Option<real>, score: int)

  predicate IsPutStrategy(strategy: string) {
    strategy in ["csp", "ps"]
  }

  function Right(strategy: string): (c: char)
    ensures c == 'P' <==> IsPutStrategy(strategy)
    ensures c == 'P' || c == 'C'
  {
    if IsPutStrategy(strategy) then 'P' else 'C'
  }

  /** The expirations whose days-to-expiry fall in [lo, hi], in order, each
      with its day count. */
  function ValidExpirations(exps: seq<string>, daysTo: string -> Option<int>, lo: int, hi: int): (r: seq<(string, int)>)
    ensures forall e, d :: (e, d) in r <==> e in exps && daysTo(e) == Some(d) && lo <= d <= hi
    ensures |r| <= |exps|
  {
    if exps == [] then []
    else
      var here := match daysTo(exps[0])
        case Some(d) => if lo <= d <= hi then [(exps[0], d)] else []
        case None => [];
      here + ValidExpirations(exps[1..], daysTo, lo, hi)
  }

  predicate InBand(strike: real, price: real) {
    price * 0.8 <= strike <= price * 1.2
  }

  /** The strikes within 20% of the stock price, in order. */
  function Band(strikes: seq<real>, price: real): (r: seq<real>)
    ensures forall s :: s in r <==> s in strikes && InBand(s, price)
    ensures |r| <= |strikes|
  {
    if strikes == [] then []
    else (if InBand(strikes[0], price) then [strikes[0]] else []) + Band(strikes[1..], price)
  }

  /** Whether a quote makes a result row: it is present, its bid is truthy,
      and a truthy delta lies within the requested band. */
  predicate Accept(od: Option<Quote>, req: ScanRequest) {
    && od.Some? && Nonzero(od.value.bid)
    && (Nonzero(od.value.delta) ==> req.minDelta <= Abs(od.value.delta.value) <= req.maxDelta)
  }

  function MakeRow(sym: string, strike: real, exp: string, dte: int, right: char, q: Quote): Row {
    Row(sym, strike, exp, dte, if right == 'P' then "PUT" else "CALL",
        q.bid, q.ask, q.iv, q.delta, q.theta, Score(q, dte))
  }

  /** Rows appended so far, and whether an exception cut the symbol short. */
  datatype Partial = Partial(rows: seq<Row>, aborted: bool)

  /** What every row of the scan satisfies. */
  ghost predicate RowOk(m: Market, req: ScanRequest, r: Row) {
    && m.stockPrice(r.symbol).Ok? && Nonzero(m.stockPrice(r.symbol).value)
    && InBand(r.strike, m.stockPrice(r.symbol).value.value)
    && m.daysTo(r.expiry) == Some(r.dte) && req.minDte <= r.dte <= req.maxDte
    && r.optionType == (if IsPutStrategy(req.strategy) then "PUT" else "CALL")
    && Nonzero(r.bid)
    && (Nonzero(r.delta) ==> req.minDelta <= Abs(r.delta.value) <= req.maxDelta)
    && r.score == Score(Quote(r.bid, r.ask, r.iv, r.delta, r.theta), r.dte)
  }

  /** `ibkr.get_option_data(symbol, exp, strike, right)` with the strategy's right. */
  function QuoteFor(m: Market, req: ScanRequest, sym: string, exp: string, strike: real): Result<Option<Quote>> {
    m.optionData(sym, exp, strike, Right(req.strategy))
  }

  /** The `for strike in otm_strikes[:5]` loop: a row per accepted quote, up
      to the first quote that raises, which ends the symbol. */
  function ScanStrikes(m: Market, req: ScanRequest, sym: string, exp: string, dte: int, strikes: seq<real>): (p: Partial)
    requires m.stockPrice(sym).Ok? && Nonzero(m.stockPrice(sym).value)
    requires forall s | s in strikes :: InBand(s, m.stockPrice(sym).value.value)
    requires m.daysTo(exp) == Some(dte) && req.minDte <= dte <= req.maxDte
    ensures |p.rows| <= |strikes|
    ensures forall r | r in p.rows :: r.symbol == sym && RowOk(m, req, r)
    ensures forall r | r in p.rows :: r.strike in strikes && r.expiry == exp
    ensures p.aborted <==> exists j | 0 <= j < |strikes| :: QuoteFor(m, req, sym, exp, strikes[j]).Err?
  {
    if strikes == [] then Partial([], false)
    else match QuoteFor(m, req, sym, exp, strikes[0])
      case Err(_) => Partial([], true)
      case Ok(od) =>
        var here := if Accept(od, req) then [MakeRow(sym, strikes[0], exp, dte, Right(req.strategy), od.value)] else [];
        var rest := ScanStrikes(m, req, sym, exp, dte, strikes[1..]);
        Partial(here + rest.rows, rest.aborted)
  }

  /** Every accepted quote before the first one that raises makes its row. */
  lemma {:induction false} ScanStrikesComplete(m: Market, req: ScanRequest, sym: string, exp: string, dte: int,
                                               strikes: seq<real>, i: nat)
    requires m.stockPrice(sym).Ok? && Nonzero(m.stockPrice(sym).value)
    requires forall s | s in strikes :: InBand(s, m.stockPrice(sym).value.value)
    requires m.daysTo(exp) == Some(dte) && req.minDte <= dte <= req.maxDte
    requires i < |strikes|
    requires forall j | 0 <= j <= i :: QuoteFor(m, req, sym, exp, strikes[j]).Ok?
    requires Accept(QuoteFor(m, req, sym, exp, strikes[i]).value, req)
    ensures MakeRow(sym, strikes[i], exp, dte, Right(req.strategy), QuoteFor(m, req, sym, exp, strikes[i]).value.value)
            in ScanStrikes(m, req, sym, exp, dte, strikes).rows
    decreases i
  {
    if i > 0 {
      var rest := strikes[1..];
      assert forall s | s in rest :: s in strikes;
      assert forall j | 0 <= j < |rest| :: rest[j] == strikes[j + 1];
      ScanStrikesComplete(m, req, sym, exp, dte, rest, i - 1);
    }
  }

  /** The strikes an expiration looks at: the first five within the band. */
  function Candidates(ss: seq<real>, price: real): (c: seq<real>)
    ensures |c| <= 5
    ensures forall s | s in c :: s in ss && InBand(s, price)
  {
    var band := Band(ss, price);
    assert forall s | s in band[..Min(5, |band|)] :: s in band;
    band[..Min(5, |band|)]
  }

  /** No call for this expiration raises: its strikes are listed and every
      candidate strike is quoted. */
  predicate ExpirationClean(m: Market, req: ScanRequest, sym: string, price: real, exp: string) {
    && m.strikes(sym, exp).Ok?
    && forall s | s in Candidates(m.strikes(sym, exp).value, price) :: QuoteFor(m, req, sym, exp, s).Ok?
  }

  function ScanExpirations(m: Market, req: ScanRequest, sym: string, valid: seq<(string, int)>): (p: Partial)
    requires m.stockPrice(sym).Ok? && Nonzero(m.stockPrice(sym).value)
    requires forall e, d | (e, d) in valid :: m.daysTo(e) == Some(d) && req.minDte <= d <= req.maxDte
    ensures |p.rows| <= 5 * |valid|
    ensures forall r | r in p.rows :: r.symbol == sym && RowOk(m, req, r)
  {
    if valid == [] then Partial([], false)
    else
      var (exp, dte) := valid[0];
      assert (exp, dte) in valid;
      match m.strikes(sym, exp)
      case Err(_) => Partial([], true)
      case Ok(ss) =>
        var first := Candidates(ss, m.stockPrice(sym).value.value);
        var p := ScanStrikes(m, req, sym, exp, dte, first);
        if p.aborted then p
        else
          var rest := ScanExpirations(m, req, sym, valid[1..]);
          Partial(p.rows + rest.rows, rest.aborted)
  }

  /** When no call raises, every accepted quote of every candidate strike
      of every expiration makes its row. */
  lemma {:induction false} ScanExpirationsComplete(m: Market, req: ScanRequest, sym: string, valid: seq<(string, int)>,
                                                   k: nat, i: nat)
    requires m.stockPrice(sym).Ok? && Nonzero(m.stockPrice(sym).value)
    requires forall e, d | (e, d) in valid :: m.daysTo(e) == Some(d) && req.minDte <= d <= req.maxDte
    requires forall j | 0 <= j < |valid| :: ExpirationClean(m, req, sym, m.stockPrice(sym).value.value, valid[j].0)
    requires k < |valid|
    requires m.strikes(sym, valid[k].0).Ok?
    requires var c := Candidates(m.strikes(sym, valid[k].0).value, m.stockPrice(sym).value.value);
      i < |c| && QuoteFor(m, req, sym, valid[k].0, c[i]).Ok? && Accept(QuoteFor(m, req, sym, valid[k].0, c[i]).value, req)
    ensures var c := Candidates(m.strikes(sym, valid[k].0).value, m.stockPrice(sym).value.value);
      MakeRow(sym, c[i], valid[k].0, valid[k].1, Right(req.strategy), QuoteFor(m, req, sym, valid[k].0, c[i]).value.value)
      in ScanExpirations(m, req, sym, valid).rows
    decreases k
  {
    var (exp, dte) := valid[0];
    assert (exp, dte) in valid;
    var c0 := Candidates(m.strikes(sym, exp).value, m.stockPrice(sym).value.value);
    assert forall j | 0 <= j < |c0| :: c0[j] in c0;
    assert !ScanStrikes(m, req, sym, exp, dte, c0).aborted;
    if k == 0 {
      ScanStrikesComplete(m, req, sym, exp, dte, c0, i);
    } else {
      var rest := valid[1..];
      assert forall e, d | (e, d) in rest :: (e, d) in valid;
      assert forall j | 0 <= j < |rest| :: rest[j] == valid[j + 1];
      ScanExpirationsComplete(m, req, sym, rest, k - 1, i);
    }
  }

  /** The expirations a symbol looks at: the first two valid ones. */
  function Picked(m: Market, req: ScanRequest, exps: seq<string>): (r: seq<(string, int)>)
    ensures |r| <= 2
    ensures forall e, d | (e, d) in r :: e in exps && m.daysTo(e) == Some(d) && req.minDte <= d <= req.maxDte
  {
    var valid := ValidExpirations(exps, m.daysTo, req.minDte, req.maxDte);
    assert forall x | x in valid[..Min(2, |valid|)] :: x in valid;
    valid[..Min(2, |valid|)]
  }

  /** One iteration of the symbol loop: a symbol without a truthy price
      contributes nothing, only its first two valid expirations and the
      first five strikes of each are looked at, and an exception keeps the
      rows appended before it. */
  function ScanSymbol(m: Market, req: ScanRequest, sym: string): (rows: seq<Row>)
    ensures |rows| <= 10
    ensures forall r | r in rows :: r.symbol == sym && RowOk(m, req, r)
    ensures m.stockPrice(sym).Err? || !Nonzero(m.stockPrice(sym).value) ==> rows == []
    ensures m.expirations(sym).Err? ==> rows == []
  {
    match m.stockPrice(sym)
    case Err(_) => []
    case Ok(price) =>
      if !Nonzero(price) then []
      else match m.expirations(sym)
        case Err(_) => []
        case Ok(exps) =>
          ScanExpirations(m, req, sym, Picked(m, req, exps)).rows
  }

  /** A symbol with a truthy price whose calls do not raise gets a row for
      every accepted quote of the first five in-band strikes of each of its
      first two valid expirations. */
  lemma ScanSymbolComplete(m: Market, req: ScanRequest, sym: string, k: nat, i: nat)
    requires m.stockPrice(sym).Ok? && Nonzero(m.stockPrice(sym).value) && m.expirations(sym).Ok?
    requires var picked := Picked(m, req, m.expirations(sym).value);
      forall j | 0 <= j < |picked| :: ExpirationClean(m, req, sym, m.stockPrice(sym).value.value, picked[j].0)
    requires var picked := Picked(m, req, m.expirations(sym).value);
      && k < |picked|
      && m.strikes(sym, picked[k].0).Ok?
      && var c := Candidates(m.strikes(sym, picked[k].0).value, m.stockPrice(sym).value.value);
         i < |c| && Accept(QuoteFor(m, req, sym, picked[k].0, c[i]).value, req)
    ensures var picked := Picked(m, req, m.expirations(sym).value);
      var c := Candidates(m.strikes(sym, picked[k].0).value, m.stockPrice(sym).value.value);
      MakeRow(sym, c[i], picked[k].0, picked[k].1, Right(req.strategy), QuoteFor(m, req, sym, picked[k].0, c[i]).value.value)
      in ScanSymbol(m, req, sym)
  {
    ScanExpirationsComplete(m, req, sym, Picked(m, req, m.expirations(sym).value), k, i);
  }

  function ScanAll(m: Market, req: ScanRequest, symbols: seq<string>): (rows: seq<Row>)
    ensures |rows| <= 10 * |symbols|
    ensures forall r | r in rows :: r.symbol in symbols && RowOk(m, req, r)
  {
    if symbols == [] then []
    else ScanSymbol(m, req, symbols[0]) + ScanAll(m, req, symbols[1..])
  }

  /** Every row of every symbol's iteration is among the scan's rows. */
  lemma {:induction false} ScanAllKeepsSymbolRows(m: Market, req: ScanRequest, symbols: seq<string>, n: nat)
    requires n < |symbols|
    ensures forall r | r in ScanSymbol(m, req, symbols[n]) :: r in ScanAll(m, req, symbols)
    decreases n
  {
    if n > 0 {
      ScanAllKeepsSymbolRows(m, req, symbols[1..], n - 1);
      assert symbols[1..][n - 1] == symbols[n];
    }
  }

  // ---------------------------------------------------------------- ranking

  predicate Descending(s: seq<Row>) {
    forall i, j | 0 <= i < j < |s| :: s[i].score >= s[j].score
  }

  /** Insert after every row scoring at least as high, so that rows with
      equal scores keep their order. */
  function InsertByScore(x: Row, s: seq<Row>): (r: seq<Row>)
    requires Descending(s)
    ensures Descending(r)
    ensures multiset(r) == multiset(s) + multiset{x}
    ensures |r| == |s| + 1
    ensures r[0] == x || (s != [] && r[0] == s[0])
  {
    if s == [] || s[0].score < x.score then [x] + s
    else
      var rest := InsertByScore(x, s[1..]);
      assert s == [s[0]] + s[1..];
      assert rest[0].score <= s[0].score;
      [s[0]] + rest
  }

  /** `results.sort(key=score, reverse=True)`. */
  function SortByScore(rows: seq<Row>): (r: seq<Row>)
    ensures Descending(r)
    ensures multiset(r) == multiset(rows)
  {
    if rows == [] then []
    else
      assert rows == rows[..|rows| - 1] + [rows[|rows| - 1]];
      InsertByScore(rows[|rows| - 1], SortByScore(rows[..|rows| - 1]))
  }

  /** `run_scan`: refused when the brokerage is not connected, otherwise the
      top 20 rows by descending score. */
  function RunScan(m: Market, req: ScanRequest): (r: Result<seq<Row>>)
    ensures !m.connected <==> r == Err("Not connected to IBKR")
    ensures r.Ok? ==> |r.value| <= 20 && Descending(r.value)
  {
    if !m.connected then Err("Not connected to IBKR")
    else
      var sorted := SortByScore(ScanAll(m, req, req.symbols));
      Ok(sorted[..Min(20, |sorted|)])
  }

  /** A prefix of a descending list holds its best rows: nothing outside the
      prefix scores higher than anything in it. */
  lemma PrefixIsTop(sorted: seq<Row>, n: nat)
    requires Descending(sorted) && n <= |sorted|
    ensures multiset(sorted[..n]) <= multiset(sorted)
    ensures forall r, x | r in sorted[..n] && x in multiset(sorted) - multiset(sorted[..n]) :: r.score >= x.score
  {
    var out, tail := sorted[..n], sorted[n..];
    PrefixSplit(sorted, n);
    PrefixDominates(sorted, n);
    forall r, x | r in out && x in multiset(sorted) - multiset(out) ensures r.score >= x.score {
      assert x in multiset(tail);
    }
  }

  lemma PrefixSplit(s: seq<Row>, n: nat)
    requires n <= |s|
    ensures multiset(s) == multiset(s[..n]) + multiset(s[n..])
    ensures multiset(s) - multiset(s[..n]) == multiset(s[n..])
  {
    assert s == s[..n] + s[n..];
  }

  lemma PrefixDominates(sorted: seq<Row>, n: nat)
    requires Descending(sorted) && n <= |sorted|
    ensures forall r, x | r in sorted[..n] && x in sorted[n..] :: r.score >= x.score
  {
    forall r, x | r in sorted[..n] && x in sorted[n..] ensures r.score >= x.score {
      var i :| 0 <= i < n && sorted[..n][i] == r;
      var j :| 0 <= j < |sorted| - n && sorted[n..][j] == x;
      assert sorted[i] == r && sorted[n + j] == x;
    }
  }

  /** The scan's result: every row passed the filters, the rows are the 20
      best (or all, if fewer) of the rows found, and nothing left out
      scored higher than anything kept. */
  lemma ScanIsTopTwenty(m: Market, req: ScanRequest)
    requires m.connected
    ensures var all := ScanAll(m, req, req.symbols);
      var out := RunScan(m, req).value;
      && |out| == Min(20, |all|)
      && multiset(out) <= multiset(all)
      && (forall r | r in out :: r.symbol in req.symbols && RowOk(m, req, r))
      && (forall r, x | r in out && x in multiset(all) - multiset(out) :: r.score >= x.score)
  {
    var all := ScanAll(m, req, req.symbols);
    var sorted := SortByScore(all);
    assert |sorted| == |multiset(all)| == |all|;
    var out := sorted[..Min(20, |sorted|)];
    PrefixIsTop(sorted, Min(20, |sorted|));
    forall r | r in out ensures r.symbol in req.symbols && RowOk(m, req, r) {
      assert r in multiset(out);
      assert r in multiset(all);
    }
  }

  // ---------------------------------------------------- covered-call lots

  /** `cc_lots` of the portfolio summary: the sum of `quantity // 100` over
      the holdings. For the positive divisor 100 Dafny's division is
      Python's floor division, negative quantities included. */
  function CcLots(quantities: seq<int>): (lots: int)
    ensures (forall i | 0 <= i < |quantities| :: 0 <= quantities[i] < 100) ==> lots == 0
    ensures (forall i | 0 <= i < |quantities| :: quantities[i] % 100 == 0) ==> 100 * lots == Sum(quantities)
  {
    if quantities == [] then 0
    else
      var init := quantities[..|quantities| - 1];
      assert forall i | 0 <= i < |init| :: init[i] == quantities[i];
      CcLots(init) + quantities[|quantities| - 1] / 100
  }

  function Sum(xs: seq<int>): int {
    if xs == [] then 0 else Sum(xs[..|xs| - 1]) + xs[|xs| - 1]
  }

  /** The lots never need more shares than are held, and each holding leaves
      at most 99 shares unused. */
  lemma {:induction false} CcLotsBounds(quantities: seq<int>)
    ensures 100 * CcLots(quantities) <= Sum(quantities)
    ensures Sum(quantities) - 100 * CcLots(quantities) <= 99 * |quantities|
    ensures (forall i | 0 <= i < |quantities| :: quantities[i] >= 0) ==> CcLots(quantities) >= 0
  {
    if quantities != [] {
      var init := quantities[..|quantities| - 1];
      CcLotsBounds(init);
      assert forall i | 0 <= i < |init| :: init[i] == quantities[i];
    }
  }

  /** Counting lots is additive over a split of the holdings. */
  lemma {:induction false} CcLotsAppend(a: seq<int>, b: seq<int>)
    ensures CcLots(a + b) == CcLots(a) + CcLots(b)
    decreases |b|
  {
    if b != [] {
      var b' := b[..|b| - 1];
      assert (a + b)[..|a + b| - 1] == a + b';
      CcLotsAppend(a, b');
    } else {
      assert a + b == a;
    }
  }
}
