/** `IBKRProxyService` (backend/websocket_relay.py): each brokerage call of
    the backend becomes one relay request with a fixed action name and
    parameter shape, and picks one key out of the returned data. */
module Proxy {
  import opened Base
  import opened Json
  import opened Registry
  import Agent

  datatype ProxyCall =
    | GetAccounts
    | GetPositions(account: Option<string>)
    | GetPortfolio(account: Option<string>)
    | GetPrice(symbol: string)
    | GetOptionExpirations(symbol: string)
    | GetOptionStrikes(symbol: string, expiry: string)
    | GetOptionData(symbol: string, expiry: string, strike: real, optionType: string)
    | GetOptionChain(symbol: string, expiry: string, strikes: Option<seq<real>>)

  /** The action name the proxy sends; the agent knows every one of them. */
  function ActionName(c: ProxyCall): (name: string)
    ensures name in Agent.KnownActions
  {
    match c
    case GetAccounts => "get_accounts"
    case GetPositions(_) => "get_positions"
    case GetPortfolio(_) => "get_portfolio"
    case GetPrice(_) => "get_price"
    case GetOptionExpirations(_) => "get_option_expirations"
    case GetOptionStrikes(_, _) => "get_option_strikes"
    case GetOptionData(_, _, _, _) => "get_option_data"
    case GetOptionChain(_, _, _) => "get_option_chain"
  }

  function OptStr(o: Option<string>): Value {
    if o.Some? then Str(o.value) else Null
  }

  /** The calls that pass a symbol, and those that also pass an expiry. */
  predicate HasSymbol(c: ProxyCall) {
    c.GetPrice? || c.GetOptionExpirations? || c.GetOptionStrikes? || c.GetOptionData? || c.GetOptionChain?
  }

  predicate HasExpiry(c: ProxyCall) {
    c.GetOptionStrikes? || c.GetOptionData? || c.GetOptionChain?
  }

  /** The `params` argument of `send_request` (absent for `get_accounts`). */
  function ParamsOf(c: ProxyCall): (r: Option<Object>)
    ensures r.None? <==> c.GetAccounts?
    ensures c.GetPositions? || c.GetPortfolio? ==> r == Some(map["account" := OptStr(c.account)])
    ensures HasSymbol(c) ==> r.Some? && "symbol" in r.value && r.value["symbol"] == Str(c.symbol)
    ensures HasExpiry(c) ==> r.Some? && "expiry" in r.value && r.value["expiry"] == Str(c.expiry)
    ensures c.GetOptionData? ==>
      r.Some? && r.value.Keys == {"symbol", "expiry", "strike", "option_type"}
      && r.value["strike"] == Float(c.strike) && r.value["option_type"] == Str(c.optionType)
    ensures c.GetOptionChain? ==>
      r.Some? && "strikes" in r.value && (r.value["strikes"] == Null <==> c.strikes.None?)
  {
    match c
    case GetAccounts => None
    case GetPositions(a) => Some(map["account" := OptStr(a)])
    case GetPortfolio(a) => Some(map["account" := OptStr(a)])
    case GetPrice(s) => Some(map["symbol" := Str(s)])
    case GetOptionExpirations(s) => Some(map["symbol" := Str(s)])
    case GetOptionStrikes(s, e) => Some(map["symbol" := Str(s), "expiry" := Str(e)])
    case GetOptionData(s, e, k, t) =>
      Some(map["symbol" := Str(s), "expiry" := Str(e), "strike" := Float(k), "option_type" := Str(t)])
    case GetOptionChain(s, e, ks) =>
      Some(map["symbol" := Str(s), "expiry" := Str(e),
               "strikes" := if ks.Some? then Arr(Agent.FloatValues(ks.value)) else Null])
  }

  /** The parameters with an absent `strikes` left out of the frame rather
      than sent as null, so that the agent's `[]` default applies. */
  function ParamsOfIntended(c: ProxyCall): (r: Option<Object>)
    ensures !(c.GetOptionChain? && c.strikes.None?) ==> r == ParamsOf(c)
    ensures c.GetOptionChain? && c.strikes.None? ==>
      r.Some? && r.value.Keys == ParamsOf(c).value.Keys - {"strikes"}
  {
    match c
    case GetOptionChain(s, e, None) => Some(map["symbol" := Str(s), "expiry" := Str(e)])
    case _ => ParamsOf(c)
  }

  /** The `timeout` argument: the chain gets 60 s, everything else the default 30 s. */
  function TimeoutOf(c: ProxyCall): (t: real)
    ensures t == 60.0 <==> c.GetOptionChain?
    ensures !c.GetOptionChain? ==> t == 30.0
  {
    if c.GetOptionChain? then 60.0 else 30.0
  }

  /** What the proxy method returns from the relay's data: one key of a
      dict (`result.get(key, default)`), or the whole data for the quote and
      the chain. Reading a key of anything but a dict raises. */
  function ResultOf(c: ProxyCall, data: Value): (r: Result<Value>)
    ensures data.Obj? ==> r.Ok?
    ensures c.GetOptionData? || c.GetOptionChain? ==> r == Ok(data)
    ensures !data.Obj? ==> (r.Ok? <==> c.GetOptionData? || c.GetOptionChain?)
    ensures !data.Obj? && r.Err? ==> r.error == "'" + TypeName(data) + "' object has no attribute 'get'"
    ensures data.Obj? && !(c.GetOptionData? || c.GetOptionChain?) && Agent.DataKey(HandlerOf(c)) in data.fields ==>
      r.value == data.fields[Agent.DataKey(HandlerOf(c))]
    ensures data.Obj? && c.GetPrice? && "price" !in data.fields ==> r.value == Null
    ensures data.Obj? && !(c.GetPrice? || c.GetOptionData? || c.GetOptionChain?) && Agent.DataKey(HandlerOf(c)) !in data.fields ==>
      r.value == Arr([])
  {
    match c
    case GetAccounts => GetFrom(data, "accounts", Arr([]))
    case GetPositions(_) => GetFrom(data, "positions", Arr([]))
    case GetPortfolio(_) => GetFrom(data, "portfolio", Arr([]))
    case GetPrice(_) => GetFrom(data, "price", Null)
    case GetOptionExpirations(_) => GetFrom(data, "expirations", Arr([]))
    case GetOptionStrikes(_, _) => GetFrom(data, "strikes", Arr([]))
    case GetOptionData(_, _, _, _) => Ok(data)
    case GetOptionChain(_, _, _) => Ok(data)
  }

  /** An agent reply with an empty error text reads as success with the
      relay's `{}` data, and that reads as the method's default: None for
      the price, an empty list for the other key lookups, and the empty
      dict itself for the quote and the chain. */
  lemma EmptyDataReadsDefault(c: ProxyCall, id: string)
    ensures ResponseOutcome(map["type" := Str("response"), "id" := Str(id), "error" := Str("")]) == Data(Obj(map[]))
    ensures ResultOf(c, Obj(map[])) == Ok(if c.GetPrice? then Null
                                          else if c.GetOptionData? || c.GetOptionChain? then Obj(map[])
                                          else Arr([]))
  {
  }

  /** `IBKRProxyService.is_connected()`: the agent's last reported gateway
      status, not the tunnel's. */
  function ProxyIsConnected(m: Manager, u: UserId, stateOf: SocketId -> TransportState): (v: Value)
    requires Valid(m)
    ensures u !in m.table ==> v == Bool(false)
    ensures u in m.table ==> v == Live(m, u).ibkrConnected
  {
    GetConnectionStatus(m, u, stateOf).ibkrConnected
  }

  /** The handler the agent runs for each proxy call: the one its action
      name dispatches to. */
  function HandlerOf(c: ProxyCall): (h: Agent.Handler)
    ensures Agent.HandlerFor(Str(ActionName(c))) == Some(h)
  {
    match c
    case GetAccounts => Agent.Accounts
    case GetPositions(_) => Agent.Positions
    case GetPortfolio(_) => Agent.Portfolio
    case GetPrice(_) => Agent.Price
    case GetOptionExpirations(_) => Agent.Expirations
    case GetOptionStrikes(_, _) => Agent.Strikes
    case GetOptionData(_, _, _, _) => Agent.OptionData
    case GetOptionChain(_, _, _) => Agent.OptionChain
  }

  /** Every proxy call names an action the agent dispatches, to the handler
      of the same name, and distinct proxy operations use distinct names. */
  lemma ProxyActionsAreDispatched(c: ProxyCall, d: ProxyCall)
    ensures ActionName(c) in Agent.KnownActions
    ensures Agent.HandlerFor(Str(ActionName(c))) == Some(HandlerOf(c))
    ensures HandlerOf(c) != HandlerOf(d) ==> ActionName(c) != ActionName(d)
  {
  }

  /** A proxy call's frame, handled by an agent with a connected gateway,
      runs the handler of the call's action on the frame's parameters. */
  lemma HandledByItsAction(g: Agent.Gateway, id: RequestId, c: ProxyCall, params: Option<Object>)
    requires g.connected
    ensures Agent.HandleRequest(Some(g), CallFrame(id, ActionName(c), params))
            == Agent.Reply(Str(id), Agent.Run(HandlerOf(c), g, Obj(ParamsOrEmpty(params))))
  {
    var frame := CallFrame(id, ActionName(c), params);
    assert Get(frame, "id", Str("unknown")) == Str(id);
    assert Get(frame, "action", Str("")) == Str(ActionName(c));
    assert Get(frame, "params", Obj(map[])) == Obj(ParamsOrEmpty(params));
    ProxyActionsAreDispatched(c, c);
  }

  /** The proxy's `get_option_chain(symbol, expiry)` without strikes sends
      `"strikes": null`; the agent's `params.get("strikes", [])` returns that
      null, and slicing it raises, so the call always comes back as an error. */
  lemma ChainWithoutStrikesIsAnError(g: Agent.Gateway, symbol: string, expiry: string, id: RequestId)
    requires g.connected
    ensures var c := GetOptionChain(symbol, expiry, None);
      Agent.HandleRequest(Some(g), CallFrame(id, ActionName(c), ParamsOf(c)))
        == map["id" := Str(id), "type" := Str("response"), "error" := Str(Agent.NotSubscriptable)]
  {
    var c := GetOptionChain(symbol, expiry, None);
    var p := map["symbol" := Str(symbol), "expiry" := Str(expiry), "strikes" := Null];
    assert ParamsOf(c) == Some(p);
    HandledByItsAction(g, id, c, ParamsOf(c));
    assert Agent.Run(HandlerOf(c), g, Obj(p)) == Agent.RunOptionChain(g, Obj(p));
    NullStrikesFail(g, p);
  }

  /** With the absent strikes left out, the same call asks for no contracts
      and comes back as an empty chain. */
  lemma ChainWithoutStrikesIsEmpty(g: Agent.Gateway, symbol: string, expiry: string, id: RequestId)
    requires g.connected
    ensures var c := GetOptionChain(symbol, expiry, None);
      Agent.HandleRequest(Some(g), CallFrame(id, ActionName(c), ParamsOfIntended(c)))
        == map["id" := Str(id), "type" := Str("response"),
               "data" := Obj(map["calls" := Arr([]), "puts" := Arr([])])]
  {
    var c := GetOptionChain(symbol, expiry, None);
    var p := map["symbol" := Str(symbol), "expiry" := Str(expiry)];
    assert ParamsOfIntended(c) == Some(p);
    HandledByItsAction(g, id, c, ParamsOfIntended(c));
    assert Agent.Run(HandlerOf(c), g, Obj(p)) == Agent.RunOptionChain(g, Obj(p));
    MissingStrikesGiveEmptyChain(g, p);
  }

  lemma MissingStrikesGiveEmptyChain(g: Agent.Gateway, p: Object)
    requires "symbol" in p && p["symbol"].Str? && "strikes" !in p
    ensures Agent.RunOptionChain(g, Obj(p)) == Ok(Obj(map["calls" := Arr([]), "puts" := Arr([])]))
  {
    assert Agent.SymbolParam(Obj(p)).Ok?;
    assert GetFrom(Obj(p), "strikes", Arr([])) == Ok(Arr([]));
    assert Agent.First20(Arr([])) == Ok([]);
  }

  /** Whatever a proxy call's action returns, the proxy can read: every
      handler answers with a dict holding the key the proxy looks up, so the
      proxy never falls back to its default nor fails on the data. */
  lemma ProxyReadsAgentData(g: Agent.Gateway, c: ProxyCall)
    ensures var r := Agent.ExecuteAction(g, Str(ActionName(c)), Obj(ParamsOrEmpty(ParamsOf(c))));
      r.Ok? ==> && r.value.Obj?
                && ResultOf(c, r.value).Ok?
                && (!c.GetOptionData? && !c.GetOptionChain? ==>
                      ResultOf(c, r.value).value in r.value.fields.Values)
    ensures c.GetAccounts? ==>
      ResultOf(c, Agent.ExecuteAction(g, Str(ActionName(c)), Obj(map[])).value)
        == Ok(Arr(Agent.StrValues(g.accounts)))
  {
    ProxyActionsAreDispatched(c, c);
  }

  lemma NullStrikesFail(g: Agent.Gateway, p: Object)
    requires "symbol" in p && p["symbol"].Str? && "expiry" in p && "strikes" in p && p["strikes"] == Null
    ensures Agent.RunOptionChain(g, Obj(p)) == Err(Agent.NotSubscriptable)
  {
    assert Agent.SymbolParam(Obj(p)).Ok?;
    assert GetFrom(Obj(p), "strikes", Arr([])) == Ok(Null);
  }
}
