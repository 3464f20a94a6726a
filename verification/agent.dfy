/** The request side of the relay agent (relay-agent/relay_agent.py):
    `handle_request`, the `_execute_action` dispatch, `send_status` and the
    message loop. The IB Gateway session (`self.ib`) is an abstract
    `Gateway`: its answers are functions whose results are already the
    values the agent puts into its reply (NaN fallbacks and the snapshot
    sleeps happen inside them); a `Err` result is an exception raised by
    ib_insync, carrying its message. */
module Agent {
  import opened Base
  import opened Json
  import opened Ordering

  /** One `OptionChain` of `reqSecDefOptParams`. */
  datatype Chain = Chain(expirations: seq<string>, strikes: seq<real>)

  /** The ticker fields the agent reads, after the NaN checks. */
  datatype Ticker = Ticker(bid: Value, ask: Value, last: Value, volume: Value,
                           delta: Value, gamma: Value, theta: Value, vega: Value, iv: Value)

  datatype Gateway = Gateway(
    connected: bool,                                      // ib.isConnected()
    accounts: seq<string>,                                // ib.managedAccounts()
    positions: Value -> Result<seq<Value>>,               // rows built from ib.positions(account)
    portfolio: Value -> Result<seq<Value>>,               // rows built from ib.portfolio(account)
    price: string -> Result<Value>,                       // the get_price snapshot
    chains: string -> Result<seq<Chain>>,                 // qualify + reqSecDefOptParams
    ticker: (string, Value, Value, string) -> Result<Ticker>)  // option snapshot (symbol, expiry, strike, right)

  /** The action names `_execute_action` recognises, one handler each. */
  datatype Handler = Accounts | Positions | Portfolio | Price | Expirations | Strikes | OptionData | OptionChain

  function HandlerFor(action: Value): Option<Handler> {
    if !action.Str? then None
    else match action.s
      case "get_accounts" => Some(Accounts)
      case "get_positions" => Some(Positions)
      case "get_portfolio" => Some(Portfolio)
      case "get_price" => Some(Price)
      case "get_option_expirations" => Some(Expirations)
      case "get_option_strikes" => Some(Strikes)
      case "get_option_data" => Some(OptionData)
      case "get_option_chain" => Some(OptionChain)
      case _ => None
  }

  const KnownActions: set<string> := {
    "get_accounts", "get_positions", "get_portfolio", "get_price",
    "get_option_expirations", "get_option_strikes", "get_option_data", "get_option_chain"}

  /** The dispatch recognises exactly the eight action names. */
  lemma HandlerForKnown(action: Value)
    ensures HandlerFor(action).Some? <==> action.Str? && action.s in KnownActions
  {
  }

  function StrValues(xs: seq<string>): (r: seq<Value>)
    ensures |r| == |xs| && forall i :: 0 <= i < |xs| ==> r[i] == Str(xs[i])
  {
    if xs == [] then [] else [Str(xs[0])] + StrValues(xs[1..])
  }

  function FloatValues(xs: seq<real>): (r: seq<Value>)
    ensures |r| == |xs| && forall i :: 0 <= i < |xs| ==> r[i] == Float(xs[i])
  {
    if xs == [] then [] else [Float(xs[0])] + FloatValues(xs[1..])
  }

  // ------------------------------------------------- expirations and strikes

  function AllExpirations(chains: seq<Chain>): (r: seq<string>)
    ensures forall y :: y in r <==> exists c :: c in chains && y in c.expirations
  {
    if chains == [] then []
    else
      assert forall c :: c in chains <==> c == chains[0] || c in chains[1..];
      chains[0].expirations + AllExpirations(chains[1..])
  }

  /** `expiry in chain.expirations`: only a string can be equal to one. */
  predicate Lists(c: Chain, expiry: Value) {
    expiry.Str? && expiry.s in c.expirations
  }

  function MatchingStrikes(chains: seq<Chain>, expiry: Value): (r: seq<real>)
    ensures forall k :: k in r <==> exists c :: c in chains && Lists(c, expiry) && k in c.strikes
  {
    if chains == [] then []
    else
      assert forall c :: c in chains <==> c == chains[0] || c in chains[1..];
      (if Lists(chains[0], expiry) then chains[0].strikes else []) + MatchingStrikes(chains[1..], expiry)
  }

  /** The `expirations` answer: the ascending, duplicate-free union of every
      chain's expirations. */
  function ExpirationUnion(chains: seq<Chain>): (r: seq<string>)
    ensures StrictlySorted(r, StrLess)
    ensures forall i, j :: 0 <= i < |r| && 0 <= j < |r| && i != j ==> r[i] != r[j]
    ensures forall y :: y in r <==> exists c :: c in chains && y in c.expirations
  {
    StrLessIsStrictTotalOrder();
    var r := SortedUnique(AllExpirations(chains), StrLess);
    StrictlySortedIsDistinct(r, StrLess);
    r
  }

  /** The `strikes` answer: the ascending, duplicate-free union of the strikes
      of only those chains that list the requested expiry. */
  function StrikeUnion(chains: seq<Chain>, expiry: Value): (r: seq<real>)
    ensures forall i, j :: 0 <= i < j < |r| ==> r[i] < r[j]
    ensures forall k :: k in r <==> exists c :: c in chains && Lists(c, expiry) && k in c.strikes
  {
    RealLessIsStrictTotalOrder();
    var r := SortedUnique(MatchingStrikes(chains, expiry), RealLess);
    assert forall i, j :: 0 <= i < j < |r| ==> RealLess(r[i], r[j]);
    r
  }

  // ------------------------------------------------------------ option chain

  /** `strikes[:20]` on whatever the `strikes` parameter holds: lists and
      strings slice (a string's characters become the strikes), scalars are
      not subscriptable and a dict cannot be sliced. */
  function First20(v: Value): (r: Result<seq<Value>>)
    ensures r.Ok? <==> v.Arr? || v.Str?
    ensures r.Ok? ==> |r.value| <= 20
    ensures v.Arr? ==> r.value == v.items[..Min(20, |v.items|)]
    ensures v.Null? ==> r == Err(NotSubscriptable)
  {
    match v
    case Arr(items) => Ok(items[..Min(20, |items|)])
    case Str(s) => Ok(seq(Min(20, |s|), i requires 0 <= i < Min(20, |s|) => Str([s[i]])))
    case Obj(_) => Err("unhashable type: 'slice'")
    case Null => Err(NotSubscriptable)
    case _ => Err("'" + TypeName(v) + "' object is not subscriptable")
  }

  /** The TypeError text of `None[:20]`. */
  const NotSubscriptable: string := "'NoneType' object is not subscriptable"

  function ChainEntry(strike: Value, t: Ticker): Value {
    Obj(map["strike" := strike, "bid" := t.bid, "ask" := t.ask, "last" := t.last,
            "volume" := t.volume, "delta" := t.delta, "iv" := t.iv])
  }

  /** What one contract adds: its entry, or nothing when its snapshot failed. */
  function ContractEntry(g: Gateway, symbol: string, expiry: Value, strike: Value, right: string): seq<Value> {
    var t := g.ticker(symbol, expiry, strike, right);
    if t.Ok? then [ChainEntry(strike, t.value)] else []
  }

  datatype ChainData = ChainData(calls: seq<Value>, puts: seq<Value>)

  /** The `for strike ... for right in ["C", "P"]` loop of `get_option_chain`. */
  function ChainLoop(g: Gateway, symbol: string, expiry: Value, strikes: seq<Value>): (d: ChainData)
    ensures |d.calls| <= |strikes| && |d.puts| <= |strikes|
    ensures strikes == [] ==> d == ChainData([], [])
    ensures |strikes| == 1 ==>
      d == ChainData(ContractEntry(g, symbol, expiry, strikes[0], "C"), ContractEntry(g, symbol, expiry, strikes[0], "P"))
  {
    if strikes == [] then ChainData([], [])
    else
      var rest := ChainLoop(g, symbol, expiry, strikes[1..]);
      ChainData(ContractEntry(g, symbol, expiry, strikes[0], "C") + rest.calls,
                ContractEntry(g, symbol, expiry, strikes[0], "P") + rest.puts)
  }

  /** Each strike contributes independently: the loop over `a + b` is the
      loop over `a` followed by the loop over `b`, so a failed contract drops
      only its own entry. */
  lemma {:induction false} ChainLoopSplits(g: Gateway, symbol: string, expiry: Value, a: seq<Value>, b: seq<Value>)
    ensures ChainLoop(g, symbol, expiry, a + b).calls
            == ChainLoop(g, symbol, expiry, a).calls + ChainLoop(g, symbol, expiry, b).calls
    ensures ChainLoop(g, symbol, expiry, a + b).puts
            == ChainLoop(g, symbol, expiry, a).puts + ChainLoop(g, symbol, expiry, b).puts
    decreases |a|
  {
    if a == [] {
      assert a + b == b;
    } else {
      assert (a + b)[0] == a[0];
      assert (a + b)[1..] == a[1..] + b;
      ChainLoopSplits(g, symbol, expiry, a[1..], b);
      var c := ContractEntry(g, symbol, expiry, a[0], "C");
      var p := ContractEntry(g, symbol, expiry, a[0], "P");
      var ra, rb := ChainLoop(g, symbol, expiry, a[1..]), ChainLoop(g, symbol, expiry, b);
      PrependAssoc(c, ra.calls, rb.calls);
      PrependAssoc(p, ra.puts, rb.puts);
    }
  }

  lemma PrependAssoc(x: seq<Value>, y: seq<Value>, z: seq<Value>)
    ensures x + (y + z) == (x + y) + z
  {
  }

  /** A contract the gateway quotes always gets its entry, whatever happens
      to the other contracts: a failure skips only its own contract. */
  lemma {:induction false} QuotedContractHasEntry(g: Gateway, symbol: string, expiry: Value, strikes: seq<Value>, i: nat)
    requires i < |strikes|
    ensures var d := ChainLoop(g, symbol, expiry, strikes);
      && (g.ticker(symbol, expiry, strikes[i], "C").Ok? ==>
            ChainEntry(strikes[i], g.ticker(symbol, expiry, strikes[i], "C").value) in d.calls)
      && (g.ticker(symbol, expiry, strikes[i], "P").Ok? ==>
            ChainEntry(strikes[i], g.ticker(symbol, expiry, strikes[i], "P").value) in d.puts)
    decreases i
  {
    if i > 0 {
      QuotedContractHasEntry(g, symbol, expiry, strikes[1..], i - 1);
      assert strikes[1..][i - 1] == strikes[i];
    }
  }

  /** Every entry of the loop's lists is for one of the given strikes. */
  lemma {:induction false} ChainEntriesFromStrikes(g: Gateway, symbol: string, expiry: Value, strikes: seq<Value>)
    ensures var d := ChainLoop(g, symbol, expiry, strikes);
      forall e | e in d.calls + d.puts :: e.Obj? && "strike" in e.fields && e.fields["strike"] in strikes
    decreases |strikes|
  {
    if strikes != [] {
      ChainEntriesFromStrikes(g, symbol, expiry, strikes[1..]);
    }
  }

  // ---------------------------------------------------------------- dispatch

  /** `params.get("symbol", "").upper()`. */
  function SymbolParam(params: Value): (r: Result<string>)
    ensures r.Ok? <==> params.Obj? && Get(params.fields, "symbol", Str("")).Str?
    ensures r.Ok? ==> r.value == UpperAscii(Get(params.fields, "symbol", Str("")).s)
  {
    var v :- GetFrom(params, "symbol", Str(""));
    Upper(v)
  }

  /** `"C" if option_type.upper() in ["C", "CALL"] else "P"`. */
  function RightFor(optionType: Value): (r: Result<string>)
    ensures optionType.Str? <==> r.Ok?
    ensures r.Ok? ==> (r.value == "C" <==> UpperAscii(optionType.s) in {"C", "CALL"})
    ensures r.Ok? ==> (r.value == "P" <==> UpperAscii(optionType.s) !in {"C", "CALL"})
  {
    var up :- Upper(optionType);
    Ok(if up == "C" || up == "CALL" then "C" else "P")
  }

  function OptionDataPayload(t: Ticker): Value {
    Obj(map["bid" := t.bid, "ask" := t.ask, "last" := t.last, "volume" := t.volume, "delta" := t.delta,
            "gamma" := t.gamma, "theta" := t.theta, "vega" := t.vega, "iv" := t.iv])
  }

  /** `get_accounts`: never fails, and lists every managed account. */
  function RunAccounts(g: Gateway): (r: Result<Value>)
    ensures r.Ok? && r.value.Obj? && r.value.fields.Keys == {"accounts"}
    ensures r.value.fields["accounts"].Arr? && |r.value.fields["accounts"].items| == |g.accounts|
    ensures forall i | 0 <= i < |g.accounts| :: r.value.fields["accounts"].items[i] == Str(g.accounts[i])
  {
    Ok(Obj(map["accounts" := Arr(StrValues(g.accounts))]))
  }

  /** `get_positions`: the gateway's rows for `params.get("account")`,
      whose failure is the action's failure. */
  function RunPositions(g: Gateway, params: Value): (r: Result<Value>)
    ensures !params.Obj? ==> r.Err? && r.error == GetFrom(params, "account", Null).error
    ensures params.Obj? ==> (
      var rows := g.positions(Get(params.fields, "account", Null));
      && (r.Ok? <==> rows.Ok?)
      && (rows.Err? ==> r.error == rows.error)
      && (r.Ok? ==> r.value.Obj? && r.value.fields.Keys == {"positions"} && r.value.fields["positions"] == Arr(rows.value)))
  {
    var account :- GetFrom(params, "account", Null);
    var rows :- g.positions(account);
    Ok(Obj(map["positions" := Arr(rows)]))
  }

  /** `get_portfolio`: as `get_positions`, over the portfolio rows. */
  function RunPortfolio(g: Gateway, params: Value): (r: Result<Value>)
    ensures !params.Obj? ==> r.Err? && r.error == GetFrom(params, "account", Null).error
    ensures params.Obj? ==> (
      var rows := g.portfolio(Get(params.fields, "account", Null));
      && (r.Ok? <==> rows.Ok?)
      && (rows.Err? ==> r.error == rows.error)
      && (r.Ok? ==> r.value.Obj? && r.value.fields.Keys == {"portfolio"} && r.value.fields["portfolio"] == Arr(rows.value)))
  {
    var account :- GetFrom(params, "account", Null);
    var rows :- g.portfolio(account);
    Ok(Obj(map["portfolio" := Arr(rows)]))
  }

  /** `get_price`: the snapshot for the upper-cased symbol. */
  function RunPrice(g: Gateway, params: Value): (r: Result<Value>)
    ensures SymbolParam(params).Err? ==> r.Err? && r.error == SymbolParam(params).error
    ensures SymbolParam(params).Ok? ==> (
      var p := g.price(SymbolParam(params).value);
      && (r.Ok? <==> p.Ok?)
      && (p.Err? ==> r.error == p.error)
      && (r.Ok? ==> r.value.Obj? && r.value.fields.Keys == {"price"} && r.value.fields["price"] == p.value))
  {
    var symbol :- SymbolParam(params);
    var price :- g.price(symbol);
    Ok(Obj(map["price" := price]))
  }

  /** `get_option_expirations`: the sorted union of every chain's
      expirations. */
  function RunExpirations(g: Gateway, params: Value): (r: Result<Value>)
    ensures r.Ok? <==> SymbolParam(params).Ok? && g.chains(SymbolParam(params).value).Ok?
    ensures SymbolParam(params).Err? ==> r.Err? && r.error == SymbolParam(params).error
    ensures SymbolParam(params).Ok? && g.chains(SymbolParam(params).value).Err? ==>
      r.Err? && r.error == g.chains(SymbolParam(params).value).error
    ensures r.Ok? ==> (
      && r.value.Obj? && r.value.fields.Keys == {"expirations"}
      && r.value.fields["expirations"] == Arr(StrValues(ExpirationUnion(g.chains(SymbolParam(params).value).value))))
  {
    var symbol :- SymbolParam(params);
    var chains :- g.chains(symbol);
    Ok(Obj(map["expirations" := Arr(StrValues(ExpirationUnion(chains)))]))
  }

  /** `get_option_strikes`: the sorted union of the strikes of the chains
      that list the expiry. */
  function RunStrikes(g: Gateway, params: Value): (r: Result<Value>)
    ensures r.Ok? <==> SymbolParam(params).Ok? && g.chains(SymbolParam(params).value).Ok?
    ensures SymbolParam(params).Err? ==> r.Err? && r.error == SymbolParam(params).error
    ensures SymbolParam(params).Ok? && g.chains(SymbolParam(params).value).Err? ==>
      r.Err? && r.error == g.chains(SymbolParam(params).value).error
    ensures r.Ok? ==> (
      && r.value.Obj? && r.value.fields.Keys == {"strikes"}
      && r.value.fields["strikes"]
         == Arr(FloatValues(StrikeUnion(g.chains(SymbolParam(params).value).value,
                                        Get(params.fields, "expiry", Str(""))))))
  {
    var symbol :- SymbolParam(params);
    // a symbol was read, so `params` is a dict and the later `get`s succeed
    var expiry := Get(params.fields, "expiry", Str(""));
    var chains :- g.chains(symbol);
    Ok(Obj(map["strikes" := Arr(FloatValues(StrikeUnion(chains, expiry)))]))
  }

  /** `get_option_data`: the quote and Greeks of one contract; the right
      comes from `option_type` (default "C"). */
  function RunOptionData(g: Gateway, params: Value): (r: Result<Value>)
    ensures SymbolParam(params).Err? ==> r.Err? && r.error == SymbolParam(params).error
    ensures SymbolParam(params).Ok? && RightFor(Get(params.fields, "option_type", Str("C"))).Err? ==>
      r.Err? && r.error == RightFor(Get(params.fields, "option_type", Str("C"))).error
    ensures r.Ok? ==> params.Obj? && RightFor(Get(params.fields, "option_type", Str("C"))).Ok?
    ensures r.Ok? ==> (
      && r.value.Obj?
      && r.value.fields.Keys == {"bid", "ask", "last", "volume", "delta", "gamma", "theta", "vega", "iv"})
    ensures SymbolParam(params).Ok? && RightFor(Get(params.fields, "option_type", Str("C"))).Ok? ==> (
      var t := g.ticker(SymbolParam(params).value, Get(params.fields, "expiry", Str("")),
                        Get(params.fields, "strike", Int(0)), RightFor(Get(params.fields, "option_type", Str("C"))).value);
      && (r.Ok? <==> t.Ok?)
      && (t.Err? ==> r.error == t.error)
      && (r.Ok? ==> r.value == OptionDataPayload(t.value)))
  {
    var symbol :- SymbolParam(params);
    var expiry := Get(params.fields, "expiry", Str(""));
    var strike := Get(params.fields, "strike", Int(0));
    var optionType := Get(params.fields, "option_type", Str("C"));
    var right :- RightFor(optionType);
    var t :- g.ticker(symbol, expiry, strike, right);
    Ok(OptionDataPayload(t))
  }

  /** `get_option_chain`: one call and one put entry per requested strike
      (at most the first 20) that the gateway quotes. */
  function RunOptionChain(g: Gateway, params: Value): (r: Result<Value>)
    ensures SymbolParam(params).Err? ==> r.Err? && r.error == SymbolParam(params).error
    ensures r.Ok? ==> (
      && r.value.Obj? && r.value.fields.Keys == {"calls", "puts"}
      && r.value.fields["calls"].Arr? && |r.value.fields["calls"].items| <= 20
      && r.value.fields["puts"].Arr? && |r.value.fields["puts"].items| <= 20)
    ensures SymbolParam(params).Ok? ==> (
      var strikes := First20(Get(params.fields, "strikes", Arr([])));
      && (r.Ok? <==> strikes.Ok?)
      && (strikes.Err? ==> r.error == strikes.error)
      && (r.Ok? ==>
            var d := ChainLoop(g, SymbolParam(params).value, Get(params.fields, "expiry", Str("")), strikes.value);
            r.value.fields["calls"] == Arr(d.calls) && r.value.fields["puts"] == Arr(d.puts)))
  {
    var symbol :- SymbolParam(params);
    var expiry := Get(params.fields, "expiry", Str(""));
    var strikesParam := Get(params.fields, "strikes", Arr([]));
    var strikes :- First20(strikesParam);
    var d := ChainLoop(g, symbol, expiry, strikes);
    Ok(Obj(map["calls" := Arr(d.calls), "puts" := Arr(d.puts)]))
  }

  /** The quote fields a chain entry shares with `get_option_data`. */
  const ChainQuoteKeys: set<string> := {"bid", "ask", "last", "volume", "delta", "iv"}

  /** Under one gateway state, `get_option_data` and a one-strike
      `get_option_chain` ask for the same contract: the chain has that
      contract's entry exactly when the single quote succeeds, and the entry
      carries the same quote fields. The two are separate snapshots in the
      program, so this holds only while the market does not move. */
  lemma OptionDataAgreesWithChain(g: Gateway, symbol: string, expiry: Value, strike: Value, call: bool)
    ensures RunOptionChain(g, Obj(map["symbol" := Str(symbol), "expiry" := expiry, "strikes" := Arr([strike])])).Ok?
    ensures var od := RunOptionData(g, Obj(map["symbol" := Str(symbol), "expiry" := expiry, "strike" := strike,
                                                "option_type" := Str(if call then "C" else "P")]));
      var ch := RunOptionChain(g, Obj(map["symbol" := Str(symbol), "expiry" := expiry, "strikes" := Arr([strike])]));
      var entries := ch.value.fields[if call then "calls" else "puts"].items;
      && (od.Ok? <==> |entries| == 1)
      && (od.Ok? ==> entries[0].Obj? && forall k | k in ChainQuoteKeys :: k in entries[0].fields && entries[0].fields[k] == od.value.fields[k])
  {
    var right, key := if call then "C" else "P", if call then "calls" else "puts";
    var sym := UpperAscii(symbol);
    OneContractQuote(g, symbol, expiry, strike, right);
    OneStrikeChain(g, symbol, expiry, strike);
    var t := g.ticker(sym, expiry, strike, right);
    var ch := RunOptionChain(g, Obj(map["symbol" := Str(symbol), "expiry" := expiry, "strikes" := Arr([strike])]));
    assert ch.value.fields[key].items == ContractEntry(g, sym, expiry, strike, right);
    if t.Ok? {
      ChainEntryQuotes(strike, t.value);
      assert ch.value.fields[key].items == [ChainEntry(strike, t.value)];
    }
  }

  lemma ChainEntryQuotes(strike: Value, t: Ticker)
    ensures forall k | k in ChainQuoteKeys ::
      k in ChainEntry(strike, t).fields && ChainEntry(strike, t).fields[k] == OptionDataPayload(t).fields[k]
  {
  }

  /** `get_option_data` on explicit parameters snapshots exactly that contract. */
  lemma OneContractQuote(g: Gateway, symbol: string, expiry: Value, strike: Value, right: string)
    requires right == "C" || right == "P"
    ensures var t := g.ticker(UpperAscii(symbol), expiry, strike, right);
      RunOptionData(g, Obj(map["symbol" := Str(symbol), "expiry" := expiry, "strike" := strike, "option_type" := Str(right)]))
      == if t.Ok? then Ok(OptionDataPayload(t.value)) else Err(t.error)
  {
    var params := Obj(map["symbol" := Str(symbol), "expiry" := expiry, "strike" := strike, "option_type" := Str(right)]);
    assert UpperAscii(right) == right by {
      assert UpperAscii(right)[0] == UpperChar(right[0]);
    }
    assert SymbolParam(params) == Ok(UpperAscii(symbol));
    assert RightFor(Get(params.fields, "option_type", Str("C"))) == Ok(right);
    assert Get(params.fields, "expiry", Str("")) == expiry && Get(params.fields, "strike", Int(0)) == strike;
  }

  /** `get_option_chain` on one strike asks for exactly its call and its put. */
  lemma OneStrikeChain(g: Gateway, symbol: string, expiry: Value, strike: Value)
    ensures var d := ChainLoop(g, UpperAscii(symbol), expiry, [strike]);
      RunOptionChain(g, Obj(map["symbol" := Str(symbol), "expiry" := expiry, "strikes" := Arr([strike])]))
      == Ok(Obj(map["calls" := Arr(d.calls), "puts" := Arr(d.puts)]))
  {
    assert First20(Arr([strike])) == Ok([strike]) by {
      assert [strike][..Min(20, 1)] == [strike];
    }
  }

  /** The key each handler's answer carries. */
  function DataKey(h: Handler): string {
    match h
    case Accounts => "accounts"
    case Positions => "positions"
    case Portfolio => "portfolio"
    case Price => "price"
    case Expirations => "expirations"
    case Strikes => "strikes"
    case OptionData => "bid"
    case OptionChain => "calls"
  }

  /** Run one handler: a success is always a dict holding the handler's key. */
  function Run(h: Handler, g: Gateway, params: Value): (r: Result<Value>)
    ensures r.Ok? ==> r.value.Obj? && DataKey(h) in r.value.fields
    ensures h == Accounts ==> r.Ok?
    ensures h != Accounts && !params.Obj? ==> r.Err?
  {
    match h
    case Accounts => RunAccounts(g)
    case Positions => RunPositions(g, params)
    case Portfolio => RunPortfolio(g, params)
    case Price => RunPrice(g, params)
    case Expirations => RunExpirations(g, params)
    case Strikes => RunStrikes(g, params)
    case OptionData => RunOptionData(g, params)
    case OptionChain => RunOptionChain(g, params)
  }

  /** `_execute_action(action, params)`. */
  function ExecuteAction(g: Gateway, action: Value, params: Value): (r: Result<Value>)
    ensures HandlerFor(action).None? ==> r == Err("Unknown action: " + PyStr(action))
  {
    match HandlerFor(action)
    case None => Err("Unknown action: " + PyStr(action))
    case Some(h) => Run(h, g, params)
  }

  // ----------------------------------------------------------- handle_request

  /** A reply frame always has `type: "response"`, the echoed id, and
      exactly one of `data` or `error`. */
  predicate WellFormedReply(reply: Object, id: Value) {
    && (reply.Keys == {"id", "type", "data"} || reply.Keys == {"id", "type", "error"})
    && reply["id"] == id
    && reply["type"] == Str("response")
    && ("error" in reply ==> reply["error"].Str?)
  }

  function Reply(id: Value, r: Result<Value>): Object {
    if r.Ok? then map["id" := id, "type" := Str("response"), "data" := r.value]
    else map["id" := id, "type" := Str("response"), "error" := Str(r.error)]
  }

  /** `handle_request(request)`: `ib` is `self.ib` (None before the first
      connection attempt). */
  function HandleRequest(ib: Option<Gateway>, request: Object): (reply: Object)
    ensures WellFormedReply(reply, Get(request, "id", Str("unknown")))
    ensures (ib.None? || !ib.value.connected) ==> "error" in reply && reply["error"] == Str("IB Gateway not connected")
    ensures ib.Some? && ib.value.connected && HandlerFor(Get(request, "action", Str(""))).None? ==>
              "error" in reply && reply["error"] == Str("Unknown action: " + PyStr(Get(request, "action", Str(""))))
  {
    var id := Get(request, "id", Str("unknown"));
    var action := Get(request, "action", Str(""));
    var params := Get(request, "params", Obj(map[]));
    if ib.None? || !ib.value.connected then Reply(id, Err("IB Gateway not connected"))
    else Reply(id, ExecuteAction(ib.value, action, params))
  }

  /** The reply carries data exactly when the gateway is connected and the
      action succeeded, and then it is that action's result. */
  lemma ReplyMatchesAction(g: Gateway, request: Object)
    requires g.connected
    ensures var reply := HandleRequest(Some(g), request);
            var r := ExecuteAction(g, Get(request, "action", Str("")), Get(request, "params", Obj(map[])));
      && ("data" in reply <==> r.Ok?)
      && (r.Ok? ==> reply["data"] == r.value)
      && (r.Err? ==> reply["error"] == Str(r.error))
  {
  }

  // ------------------------------------------------------------- send_status

  /** `send_status()`: nothing without a socket; otherwise a status frame
      reporting the session and its first managed account. */
  function StatusFrame(hasSocket: bool, ib: Option<Gateway>, timestamp: string): (f: Option<Object>)
    ensures !hasSocket <==> f.None?
    ensures f.Some? ==> f.value.Keys == {"type", "ibkr_connected", "account", "timestamp"}
    ensures f.Some? ==> f.value["type"] == Str("status")
    ensures f.Some? && ib.None? ==> f.value["ibkr_connected"] == Bool(false) && f.value["account"] == Null
    ensures f.Some? && ib.Some? ==>
      && f.value["ibkr_connected"] == Bool(ib.value.connected)
      && f.value["account"] == (if |ib.value.accounts| > 0 then Str(ib.value.accounts[0]) else Null)
  {
    if !hasSocket then None
    else
      var connected := if ib.Some? then ib.value.connected else false;
      var account := if ib.Some? && |ib.value.accounts| > 0 then Str(ib.value.accounts[0]) else Null;
      Some(map["type" := Str("status"), "ibkr_connected" := Bool(connected), "account" := account,
               "timestamp" := Str(timestamp)])
  }

  // ------------------------------------------------------------ message_loop

  /** One websocket message: undecodable JSON, or a decoded value. */
  datatype Incoming = Malformed | Decoded(v: Value)

  /** The messages that get a reply: decoded JSON objects. Anything else is
      logged and dropped (`json.loads` fails, or `request.get` raises). */
  function Requests(msgs: seq<Incoming>): (r: seq<Object>)
    ensures |r| <= |msgs|
    decreases |msgs|
  {
    if msgs == [] then []
    else
      var init, last := msgs[..|msgs| - 1], msgs[|msgs| - 1];
      Requests(init) + (if last.Decoded? && last.v.Obj? then [last.v.fields] else [])
  }

  /** Every request is a decoded object among the messages, and when every
      message is one, none is dropped. */
  lemma {:induction false} RequestsAreDecodedObjects(msgs: seq<Incoming>)
    ensures forall o | o in Requests(msgs) :: Decoded(Obj(o)) in msgs
    ensures (forall i | 0 <= i < |msgs| :: msgs[i].Decoded? && msgs[i].v.Obj?) ==> |Requests(msgs)| == |msgs|
    decreases |msgs|
  {
    if msgs != [] {
      var init, last := msgs[..|msgs| - 1], msgs[|msgs| - 1];
      RequestsAreDecodedObjects(init);
      assert forall i | 0 <= i < |init| :: init[i] == msgs[i];
      assert forall m | m in init :: m in msgs;
    }
  }

  /** Reading one more message adds its request, if it is one, at the end. */
  lemma RequestsStep(msgs: seq<Incoming>, k: nat)
    requires k < |msgs|
    ensures Requests(msgs[..k + 1])
            == Requests(msgs[..k]) + (if msgs[k].Decoded? && msgs[k].v.Obj? then [msgs[k].v.fields] else [])
  {
    assert msgs[..k + 1][..k] == msgs[..k];
  }

  /** `message_loop()`: requests are handled one at a time, each reply sent
      before the next message is read, so the replies come out in request
      order, one per request. */
  method MessageLoop(ib: Option<Gateway>, msgs: seq<Incoming>) returns (replies: seq<Object>)
    ensures |replies| == |Requests(msgs)|
    ensures forall i :: 0 <= i < |replies| ==> replies[i] == HandleRequest(ib, Requests(msgs)[i])
    ensures forall i :: 0 <= i < |replies| ==>
              WellFormedReply(replies[i], Get(Requests(msgs)[i], "id", Str("unknown")))
  {
    replies := Serve(req => HandleRequest(ib, req), msgs);
  }

  /** The loop of `message_loop()` for any request handler: one reply per
      request, in the order the requests arrived. */
  method Serve(handle: Object -> Object, msgs: seq<Incoming>) returns (replies: seq<Object>)
    ensures |replies| == |Requests(msgs)|
    ensures forall i :: 0 <= i < |replies| ==> replies[i] == handle(Requests(msgs)[i])
  {
    replies := [];
    var k := 0;
    while k < |msgs|
      invariant 0 <= k <= |msgs|
      invariant |replies| == |Requests(msgs[..k])|
      invariant forall i :: 0 <= i < |replies| ==> replies[i] == handle(Requests(msgs[..k])[i])
    {
      RequestsStep(msgs, k);
      var m := msgs[k];
      if m.Decoded? && m.v.Obj? {
        assert Requests(msgs[..k + 1]) == Requests(msgs[..k]) + [m.v.fields];
        var reply := handle(m.v.fields);
        replies := replies + [reply];
      } else {
        assert Requests(msgs[..k + 1]) == Requests(msgs[..k]) + [];
      }
      k := k + 1;
    }
    assert msgs[..k] == msgs;
  }
}
