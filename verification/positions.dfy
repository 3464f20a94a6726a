/** The Python-side logic of the position store: the field filter and SET
    clause of `update_position`, the aggregation of `get_performance_stats`
    over the fetched closed positions, and the derived fields of
    `upsert_stock_holding`. The database itself is not modelled: the number
    of rows an UPDATE touches is a parameter, and the closed positions are
    given as rows. */
module Positions {
  import opened Base
  import opened Json

  // --------------------------------------------------------- update_position

  const AllowedFields: set<string> := {
    "underlying", "option_type", "strike", "expiry", "quantity",
    "premium_collected", "strategy_type", "notes", "ibkr_con_id"
  }

  /** `**updates` in call order; keyword names are distinct. */
  predicate DistinctKeys(updates: seq<(string, Value)>) {
    forall i, j | 0 <= i < j < |updates| :: updates[i].0 != updates[j].0
  }

  /** The updates whose field is allowed, in order. */
  function Allowed(updates: seq<(string, Value)>): (r: seq<(string, Value)>)
    ensures forall u :: u in r <==> u in updates && u.0 in AllowedFields
    ensures |r| <= |updates|
    ensures DistinctKeys(updates) ==> DistinctKeys(r)
    ensures updates == [] ==> r == []
    ensures |updates| == 1 ==> r == (if updates[0].0 in AllowedFields then updates else [])
  {
    if updates == [] then []
    else
      var rest := Allowed(updates[1..]);
      if updates[0].0 in AllowedFields then
        assert forall u | u in rest :: u in updates[1..];
        [updates[0]] + rest
      else rest
  }

  /** The filter keeps the input order: filtering `a + b` is filtering `a`
      followed by filtering `b`. */
  lemma {:induction false} AllowedAppend(a: seq<(string, Value)>, b: seq<(string, Value)>)
    ensures Allowed(a + b) == Allowed(a) + Allowed(b)
    decreases |a|
  {
    if a == [] {
      assert a + b == b;
    } else {
      assert (a + b)[0] == a[0];
      assert (a + b)[1..] == a[1..] + b;
      AllowedAppend(a[1..], b);
    }
  }

  /** `', '.join(f'{k} = ?' for k in keys)`. */
  function SetClause(keys: seq<string>): string {
    if keys == [] then ""
    else if |keys| == 1 then keys[0] + " = ?"
    else keys[0] + " = ?, " + SetClause(keys[1..])
  }

  function Placeholders(s: string): nat {
    if s == [] then 0 else (if s[0] == '?' then 1 else 0) + Placeholders(s[1..])
  }

  lemma {:induction false} PlaceholdersAppend(a: string, b: string)
    ensures Placeholders(a + b) == Placeholders(a) + Placeholders(b)
    decreases |a|
  {
    if a == [] {
      assert a + b == b;
    } else {
      assert (a + b)[1..] == a[1..] + b;
      PlaceholdersAppend(a[1..], b);
    }
  }

  predicate NoPlaceholder(k: string) {
    forall i | 0 <= i < |k| :: k[i] != '?'
  }

  lemma NoPlaceholderCount(k: string)
    requires NoPlaceholder(k)
    ensures Placeholders(k) == 0
    decreases |k|
  {
    if k != [] {
      NoPlaceholderCount(k[1..]);
    }
  }

  /** The SET clause holds one placeholder per field, as long as no field
      name contains a '?' (which the allow-list guarantees). */
  lemma {:induction false} SetClausePlaceholders(keys: seq<string>)
    requires forall k | k in keys :: NoPlaceholder(k)
    ensures Placeholders(SetClause(keys)) == |keys|
    decreases |keys|
  {
    if keys != [] {
      NoPlaceholderCount(keys[0]);
      PlaceholdersAppend(keys[0], " = ?");
      if |keys| > 1 {
        SetClausePlaceholders(keys[1..]);
        PlaceholdersAppend(keys[0] + " = ?", ", " + SetClause(keys[1..]));
        PlaceholdersAppend(", ", SetClause(keys[1..]));
        assert keys[0] + " = ?, " + SetClause(keys[1..]) == (keys[0] + " = ?") + (", " + SetClause(keys[1..]));
      }
    }
  }

  /** The statement `update_position` would execute. */
  datatype Update = Update(setClause: string, values: seq<Value>)

  function Keys(us: seq<(string, Value)>): (r: seq<string>)
    ensures |r| == |us| && forall i | 0 <= i < |us| :: r[i] == us[i].0
  {
    if us == [] then [] else [us[0].0] + Keys(us[1..])
  }

  function Values(us: seq<(string, Value)>): (r: seq<Value>)
    ensures |r| == |us| && forall i | 0 <= i < |us| :: r[i] == us[i].1
  {
    if us == [] then [] else [us[0].1] + Values(us[1..])
  }

  /** The UPDATE to run, or None when there is nothing to update and the
      function returns False without touching the database. */
  function PlanUpdate(positionId: int, updates: seq<(string, Value)>): (r: Option<Update>)
    ensures updates == [] ==> r.None?
    ensures r.None? <==> forall i | 0 <= i < |updates| :: updates[i].0 !in AllowedFields
    ensures r.Some? ==> var kept := Allowed(updates);
      && r.value.setClause == SetClause(Keys(kept))
      && r.value.values == Values(kept) + [Int(positionId)]
  {
    var kept := Allowed(updates);
    if updates == [] then None
    else if kept == [] then
      assert forall i | 0 <= i < |updates| :: updates[i] in updates;
      None
    else
      assert kept[0] in updates;
      Some(Update(SetClause(Keys(kept)), Values(kept) + [Int(positionId)]))
  }

  /** `update_position`: False without a query when nothing survives the
      allow-list, otherwise whether the UPDATE touched a row. */
  function UpdatePosition(positionId: int, updates: seq<(string, Value)>, rowcount: nat): (ok: bool)
    ensures ok <==> PlanUpdate(positionId, updates).Some? && rowcount > 0
    ensures updates == [] ==> !ok
  {
    match PlanUpdate(positionId, updates)
    case None => false
    case Some(_) => rowcount > 0
  }

  /** The bound values line up with the placeholders: one per surviving
      field, in input order, and the position id last for the WHERE
      clause. */
  lemma UpdateBindsEveryPlaceholder(positionId: int, updates: seq<(string, Value)>)
    requires PlanUpdate(positionId, updates).Some?
    ensures var u := PlanUpdate(positionId, updates).value;
      && Placeholders(u.setClause) + 1 == |u.values|
      && u.values[|u.values| - 1] == Int(positionId)
      && (forall i | 0 <= i < |u.values| - 1 :: Allowed(updates)[i].0 in AllowedFields)
  {
    var kept := Allowed(updates);
    forall i | 0 <= i < |kept| ensures kept[i].0 in AllowedFields {
      assert kept[i] in kept;
    }
    AllowedKeysHaveNoPlaceholder(kept);
    SetClausePlaceholders(Keys(kept));
  }

  lemma AllowedKeysHaveNoPlaceholder(kept: seq<(string, Value)>)
    requires forall i | 0 <= i < |kept| :: kept[i].0 in AllowedFields
    ensures forall k | k in Keys(kept) :: NoPlaceholder(k)
  {
    AllowedFieldsHaveNoPlaceholder();
    forall k | k in Keys(kept) ensures NoPlaceholder(k) {
      var i :| 0 <= i < |Keys(kept)| && Keys(kept)[i] == k;
      assert k in AllowedFields;
    }
  }

  lemma AllowedFieldsHaveNoPlaceholder()
    ensures forall f | f in AllowedFields :: NoPlaceholder(f)
  {
  }

  // ------------------------------------------------------ performance stats

  /** The columns of a closed position the statistics read. */
  datatype ClosedRow = ClosedRow(underlying: string, premium: real, closePrice: Option<real>,
                                 quantity: int, strategy: string)

  datatype Trade = Trade(symbol: string, pnl: real, strategy: string)

  /** `profit_factor`: a ratio, or `float('inf')` when nothing was lost. */
  datatype Factor = Finite(x: real) | Infinite

  datatype Stats = Stats(totalTrades: nat, winningTrades: nat, losingTrades: nat, winRate: real,
                         totalPnl: real, avgWin: real, avgLoss: real,
                         best: Option<Trade>, worst: Option<Trade>, profitFactor: Factor)

  /** (premium - (close or 0)) * quantity * 100; a zero or missing close
      price counts as 0. */
  function Pnl(r: ClosedRow): (p: real)
    ensures !Nonzero(r.closePrice) ==> p == r.premium * (r.quantity as real) * 100.0
    ensures r.quantity > 0 && Nonzero(r.closePrice) ==> (p > 0.0 <==> r.closePrice.value < r.premium)
    ensures r.quantity == 0 ==> p == 0.0
  {
    (r.premium - (if Nonzero(r.closePrice) then r.closePrice.value else 0.0)) * (r.quantity as real) * 100.0
  }

  function ToTrade(r: ClosedRow): (t: Trade)
    ensures t.symbol == r.underlying && t.strategy == r.strategy && t.pnl == Pnl(r)
  {
    Trade(r.underlying, Pnl(r), r.strategy)
  }

  function Trades(rows: seq<ClosedRow>): (ts: seq<Trade>)
    ensures |ts| == |rows| && forall i | 0 <= i < |rows| :: ts[i] == ToTrade(rows[i])
  {
    if rows == [] then [] else [ToTrade(rows[0])] + Trades(rows[1..])
  }

  function Wins(ts: seq<Trade>): (r: seq<Trade>)
    ensures forall t :: t in r <==> t in ts && t.pnl > 0.0
  {
    if ts == [] then [] else (if ts[0].pnl > 0.0 then [ts[0]] else []) + Wins(ts[1..])
  }

  function Losses(ts: seq<Trade>): (r: seq<Trade>)
    ensures forall t :: t in r <==> t in ts && t.pnl <= 0.0
  {
    if ts == [] then [] else (if ts[0].pnl <= 0.0 then [ts[0]] else []) + Losses(ts[1..])
  }

  /** Every trade is a win or a loss and never both. */
  lemma {:induction false} WinsAndLossesPartition(ts: seq<Trade>)
    ensures |Wins(ts)| + |Losses(ts)| == |ts|
    ensures multiset(Wins(ts)) + multiset(Losses(ts)) == multiset(ts)
    decreases |ts|
  {
    if ts != [] {
      WinsAndLossesPartition(ts[1..]);
      assert ts == [ts[0]] + ts[1..];
    }
  }

  function SumPnl(ts: seq<Trade>): real {
    if ts == [] then 0.0 else ts[0].pnl + SumPnl(ts[1..])
  }

  lemma {:induction false} SumOfWinsPositive(ts: seq<Trade>)
    ensures SumPnl(Wins(ts)) >= 0.0
    ensures Wins(ts) != [] ==> SumPnl(Wins(ts)) > 0.0
    decreases |ts|
  {
    if ts != [] {
      SumOfWinsPositive(ts[1..]);
      if ts[0].pnl > 0.0 {
        assert Wins(ts)[1..] == Wins(ts[1..]);
      } else {
        assert Wins(ts) == Wins(ts[1..]);
      }
    }
  }

  lemma {:induction false} SumOfLossesNonPositive(ts: seq<Trade>)
    ensures SumPnl(Losses(ts)) <= 0.0
    decreases |ts|
  {
    if ts != [] {
      SumOfLossesNonPositive(ts[1..]);
      if ts[0].pnl <= 0.0 {
        assert Losses(ts)[1..] == Losses(ts[1..]);
      } else {
        assert Losses(ts) == Losses(ts[1..]);
      }
    }
  }

  /** `max(ts, key=pnl)`: the first trade with the largest pnl. */
  function Best(ts: seq<Trade>): (b: Trade)
    requires ts != []
    ensures b in ts && forall t | t in ts :: t.pnl <= b.pnl
    ensures exists i | 0 <= i < |ts| :: ts[i] == b && forall j | 0 <= j < i :: ts[j].pnl < b.pnl
  {
    if |ts| == 1 then ts[0]
    else
      var rest := Best(ts[1..]);
      assert forall t | t in ts :: t == ts[0] || t in ts[1..];
      if rest.pnl > ts[0].pnl then
        FirstShifts(ts, rest, true);
        rest
      else
        assert ts[0] == ts[0];
        ts[0]
  }

  /** `min(ts, key=pnl)`: the first trade with the smallest pnl. */
  function Worst(ts: seq<Trade>): (w: Trade)
    requires ts != []
    ensures w in ts && forall t | t in ts :: w.pnl <= t.pnl
    ensures exists i | 0 <= i < |ts| :: ts[i] == w && forall j | 0 <= j < i :: w.pnl < ts[j].pnl
  {
    if |ts| == 1 then ts[0]
    else
      var rest := Worst(ts[1..]);
      assert forall t | t in ts :: t == ts[0] || t in ts[1..];
      if rest.pnl < ts[0].pnl then
        FirstShifts(ts, rest, false);
        rest
      else
        assert ts[0] == ts[0];
        ts[0]
  }

  /** A trade that is the first extreme of `ts[1..]` and strictly beats
      `ts[0]` is the first extreme of `ts`. */
  lemma FirstShifts(ts: seq<Trade>, x: Trade, largest: bool)
    requires |ts| > 1
    requires largest ==> ts[0].pnl < x.pnl
    requires !largest ==> x.pnl < ts[0].pnl
    requires exists i | 0 <= i < |ts[1..]| :: ts[1..][i] == x &&
               forall j | 0 <= j < i :: (if largest then ts[1..][j].pnl < x.pnl else x.pnl < ts[1..][j].pnl)
    ensures exists i | 0 <= i < |ts| :: ts[i] == x &&
              forall j | 0 <= j < i :: (if largest then ts[j].pnl < x.pnl else x.pnl < ts[j].pnl)
  {
    var i :| 0 <= i < |ts[1..]| && ts[1..][i] == x &&
             forall j | 0 <= j < i :: (if largest then ts[1..][j].pnl < x.pnl else x.pnl < ts[1..][j].pnl);
    forall j | 0 <= j < i + 1 ensures (if largest then ts[j].pnl < x.pnl else x.pnl < ts[j].pnl) {
      if j > 0 {
        assert ts[j] == ts[1..][j - 1];
      }
    }
    assert ts[i + 1] == x;
  }

  /** `q` is `num / den`, stated without a division. */
  predicate IsQuotient(q: real, num: real, den: real) {
    q * den == num
  }

  /** `len(wins) / len(pnl_list) * 100`. */
  function WinRate(wins: nat, total: nat): (r: real)
    requires wins <= total && total > 0
    ensures 0.0 <= r <= 100.0
    ensures IsQuotient(r, (wins as real) * 100.0, total as real)
  {
    assert (wins as real) / (total as real) <= 1.0 by {
      assert (wins as real) / (total as real) * (total as real) == wins as real;
    }
    (wins as real) / (total as real) * 100.0
  }

  /** `total / count if items else 0`. */
  function Average(total: real, count: nat): (r: real)
    requires total >= 0.0
    ensures r >= 0.0
    ensures count > 0 ==> IsQuotient(r, total, count as real)
    ensures count == 0 ==> r == 0.0
  {
    if count > 0 then total / (count as real) else 0.0
  }

  /** `total_wins / total_losses`, infinite when nothing was lost. */
  function ProfitFactor(totalWins: real, totalLosses: real): (f: Factor)
    requires totalWins >= 0.0 && totalLosses >= 0.0
    ensures f == Infinite <==> totalLosses == 0.0
    ensures f.Finite? ==> f.x >= 0.0 && IsQuotient(f.x, totalWins, totalLosses)
  {
    if totalLosses > 0.0 then Finite(totalWins / totalLosses) else Infinite
  }

  /** The figures of a non-empty list of trades: wins and losses split
      it, each average times its count is the matching total, the win rate
      is the percentage of wins, the profit factor times the money lost is
      the money won, and the best and worst trades are those `max` and `min`
      pick. */
  function StatsOf(ts: seq<Trade>): (s: Stats)
    requires ts != []
    ensures s.totalTrades == |ts| && s.totalPnl == SumPnl(ts)
    ensures s.winningTrades == |Wins(ts)| && s.losingTrades == |Losses(ts)|
    ensures s.winningTrades + s.losingTrades == s.totalTrades
    ensures 0.0 <= s.winRate <= 100.0 && IsQuotient(s.winRate, (s.winningTrades as real) * 100.0, |ts| as real)
    ensures s.avgWin >= 0.0 && s.avgLoss >= 0.0
    ensures s.winningTrades > 0 ==> IsQuotient(s.avgWin, SumPnl(Wins(ts)), s.winningTrades as real)
    ensures s.winningTrades == 0 ==> s.avgWin == 0.0
    ensures s.losingTrades > 0 ==> IsQuotient(s.avgLoss, Abs(SumPnl(Losses(ts))), s.losingTrades as real)
    ensures s.losingTrades == 0 ==> s.avgLoss == 0.0
    ensures s.profitFactor == Infinite <==> SumPnl(Losses(ts)) == 0.0
    ensures s.profitFactor.Finite? ==> IsQuotient(s.profitFactor.x, SumPnl(Wins(ts)), Abs(SumPnl(Losses(ts))))
    ensures s.best == Some(Best(ts)) && s.worst == Some(Worst(ts))
  {
    var wins, losses := Wins(ts), Losses(ts);
    WinsAndLossesPartition(ts);
    SumOfWinsPositive(ts);
    var totalWins := SumPnl(wins);
    var totalLosses := Abs(SumPnl(losses));
    Stats(|ts|, |wins|, |losses|,
          WinRate(|wins|, |ts|),
          SumPnl(ts),
          Average(totalWins, |wins|),
          Average(totalLosses, |losses|),
          Some(Best(ts)), Some(Worst(ts)),
          ProfitFactor(totalWins, totalLosses))
  }

  /** `get_performance_stats` over the fetched closed positions: with none
      every figure is zero and there is no best or worst trade; otherwise
      the figures of the rows' trades, and the best and worst trades bound
      every pnl. */
  function PerformanceStats(rows: seq<ClosedRow>): (s: Stats)
    ensures rows == [] ==> s == Stats(0, 0, 0, 0.0, 0.0, 0.0, 0.0, None, None, Finite(0.0))
    ensures s.totalTrades == |rows| && s.totalPnl == SumPnl(Trades(rows))
    ensures s.winningTrades == |Wins(Trades(rows))| && s.losingTrades == |Losses(Trades(rows))|
    ensures s.winningTrades + s.losingTrades == s.totalTrades
    ensures 0.0 <= s.winRate <= 100.0
    ensures rows != [] ==> IsQuotient(s.winRate, (s.winningTrades as real) * 100.0, |rows| as real)
    ensures s.avgWin >= 0.0 && s.avgLoss >= 0.0
    ensures s.winningTrades > 0 ==> IsQuotient(s.avgWin, SumPnl(Wins(Trades(rows))), s.winningTrades as real)
    ensures s.winningTrades == 0 ==> s.avgWin == 0.0
    ensures s.losingTrades > 0 ==> IsQuotient(s.avgLoss, Abs(SumPnl(Losses(Trades(rows)))), s.losingTrades as real)
    ensures s.losingTrades == 0 ==> s.avgLoss == 0.0
    ensures s.profitFactor == Infinite <==> rows != [] && SumPnl(Losses(Trades(rows))) == 0.0
    ensures rows != [] && s.profitFactor.Finite? ==>
      IsQuotient(s.profitFactor.x, SumPnl(Wins(Trades(rows))), Abs(SumPnl(Losses(Trades(rows)))))
    ensures rows != [] ==>
      && s.best == Some(Best(Trades(rows))) && s.worst == Some(Worst(Trades(rows)))
      && (forall i | 0 <= i < |rows| :: s.worst.value.pnl <= Pnl(rows[i]) <= s.best.value.pnl)
  {
    if rows == [] then Stats(0, 0, 0, 0.0, 0.0, 0.0, 0.0, None, None, Finite(0.0))
    else
      var ts := Trades(rows);
      assert forall i | 0 <= i < |rows| :: ts[i] in ts;
      StatsOf(ts)
  }

  /** Reordering the closed positions changes no count, rate or total. */
  lemma {:induction false} StatsIgnoreOrder(a: seq<ClosedRow>, b: seq<ClosedRow>)
    ensures var s1, s2 := PerformanceStats(a + b), PerformanceStats(b + a);
      s1.totalTrades == s2.totalTrades && s1.winningTrades == s2.winningTrades
      && s1.losingTrades == s2.losingTrades && s1.winRate == s2.winRate
  {
    TradesAppend(a, b);
    TradesAppend(b, a);
    WinsAppend(Trades(a), Trades(b));
    WinsAppend(Trades(b), Trades(a));
    if a + b != [] {
      assert b + a != [];
    }
  }

  lemma {:induction false} TradesAppend(a: seq<ClosedRow>, b: seq<ClosedRow>)
    ensures Trades(a + b) == Trades(a) + Trades(b)
  {
    assert |Trades(a + b)| == |Trades(a) + Trades(b)|;
    forall i | 0 <= i < |a + b| ensures Trades(a + b)[i] == (Trades(a) + Trades(b))[i] {
      if i < |a| {
        assert (a + b)[i] == a[i];
      } else {
        assert (a + b)[i] == b[i - |a|];
      }
    }
  }

  lemma {:induction false} WinsAppend(a: seq<Trade>, b: seq<Trade>)
    ensures Wins(a + b) == Wins(a) + Wins(b)
    decreases |a|
  {
    if a == [] {
      assert a + b == b;
    } else {
      assert (a + b)[1..] == a[1..] + b;
      assert (a + b)[0] == a[0];
      WinsAppend(a[1..], b);
    }
  }

  /** Swapping two blocks of closed rows leaves the total P&L as it was. */
  lemma {:induction false} TotalIgnoresOrder(a: seq<ClosedRow>, b: seq<ClosedRow>)
    ensures PerformanceStats(a + b).totalPnl == PerformanceStats(b + a).totalPnl
  {
    TradesAppend(a, b);
    TradesAppend(b, a);
    SumPnlAppend(Trades(a), Trades(b));
    SumPnlAppend(Trades(b), Trades(a));
    assert SumPnl(Trades(a + b)) == SumPnl(Trades(b + a));
  }

  lemma {:induction false} SumPnlAppend(a: seq<Trade>, b: seq<Trade>)
    ensures SumPnl(a + b) == SumPnl(a) + SumPnl(b)
    decreases |a|
  {
    if a == [] {
      assert a + b == b;
    } else {
      assert (a + b)[1..] == a[1..] + b;
      assert (a + b)[0] == a[0];
      SumPnlAppend(a[1..], b);
    }
  }

  // ----------------------------------------------------- upsert_stock_holding

  datatype Derived = Derived(marketValue: Option<real>, unrealizedPnl: Option<real>)

  /** `market_value` and `unrealized_pnl` as `upsert_stock_holding` computes
      them: each only when the prices it needs are truthy. */
  function HoldingDerived(quantity: int, avgCost: Option<real>, currentPrice: Option<real>): (d: Derived)
    ensures d.marketValue.Some? <==> Nonzero(currentPrice)
    ensures d.unrealizedPnl.Some? <==> Nonzero(currentPrice) && Nonzero(avgCost)
    ensures d.marketValue.Some? ==> d.marketValue.value == quantity as real * currentPrice.value
    ensures d.unrealizedPnl.Some? ==>
      d.unrealizedPnl.value == quantity as real * (currentPrice.value - avgCost.value)
  {
    Derived(
      if Nonzero(currentPrice) then Some(quantity as real * currentPrice.value) else None,
      if Nonzero(currentPrice) && Nonzero(avgCost)
      then Some(quantity as real * (currentPrice.value - avgCost.value)) else None)
  }

  /** When both are present, the unrealized P&L is the market value less
      the position's cost basis. */
  lemma UnrealizedIsValueLessCost(quantity: int, avgCost: Option<real>, currentPrice: Option<real>)
    requires Nonzero(currentPrice) && Nonzero(avgCost)
    ensures var d := HoldingDerived(quantity, avgCost, currentPrice);
      d.unrealizedPnl.value == d.marketValue.value - quantity as real * avgCost.value
  {
  }
}
