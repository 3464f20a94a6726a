# options-buddy relay and scoring core, in Dafny

This project models the core of the options-buddy backend and its relay agent, and proves properties of that model.

**The relay tunnel.** The cloud `RelayManager` keeps a table from user id to one `RelayConnection`. Each connection has its socket, heartbeat time, reported IBKR status and pending request slots. The table changes through:
- `connect`, `disconnect` and `handle_message`;
- `send_request`, split at its await into a begin step and an end step.

The end step resolves in one of three ways: the slot was filled (data or remote error), it was cancelled, or the timer fired. `IBKRProxyService` maps each brokerage call onto one relay request.

**The relay agent.** `handle_request` and the `_execute_action` dispatch answer each request frame. `send_status` and `message_loop` complete the request path. The `run`/`stop` reconnection loop is a transition system over abstract success and failure events.

**Encryption.** API-key masking, the key-format branching of `_get_fernet`, the empty-text short-circuits, and the passthrough used when no key is configured.

**Scoring and storage helpers:**
- the scanner's 0-100 score, the `run_scan` filters, its sort and its top-20 cut, and covered-call lots;
- the put-call-parity classifier, the synthetic prices, the outlier detector and the parity opportunity score;
- the `update_position` allow-list and SET clause;
- the performance-statistics aggregation;
- the derived fields of `upsert_stock_holding`.

Everything is an immutable datatype with pure functions over it, except the message loop, which is a method. Whatever the code reads from outside becomes a parameter:
- **Socket transport state:** `stateOf: SocketId -> TransportState`.
- **The clock:** `now: int`.
- **Fresh request ids in place of `uuid4`:** `id`, required not to be pending.
- **The IB Gateway session:** `Agent.Gateway`.
- **The scanner's brokerage service:** `Scanner.Market`.
- **Fernet, base64, SHA-256 and UTF-8:** `Encryption.Crypto`, with the facts relied on collected in `Lawful`.
- **The discount factor `exp(-rT)`:** `discount`.
- **numpy's mean and sample standard deviation:** `moments`.
- **The affected-row count of the UPDATE:** `rowcount`.
- **The configured encryption key:** a string, where unset is `""`.

Relay lifecycle: the whole tunnel (`Relay.System`) is the manager together with the callers suspended in `send_request`. Every interleaving of the atomic steps (connect, disconnect, begin, end, receive) keeps `Relay.Inv`.

## Model

| member | source | states |
|---|---|---|
| Registry.Init | backend/websocket_relay.py:42-44 | The manager starts with no connections and satisfies the registry invariant. |
| Registry.Connect | backend/websocket_relay.py:56-70 | The user maps to a fresh connection on the new socket: default status, no pending slots, connected and heartbeat time `now`. Other users' entries and every existing connection object are unchanged. The old socket, if any, is closed with code 1000 "New connection". |
| Registry.CancelPending | backend/websocket_relay.py:78-80 | Every slot not yet done becomes cancelled and every done slot is kept; no slot is added or removed. |
| Registry.Disconnect | backend/websocket_relay.py:72-81 | The user is dropped from the table and its connection's waiting slots are cancelled. Disconnecting an absent user changes nothing, and no other connection changes. |
| Registry.GetConnectionStatus | backend/websocket_relay.py:83-107 | `connected` is exactly `is_connected`. An absent user reads as not connected, IBKR false, account None. A tracked user reports its stored status and times. |
| Registry.IsConnected | backend/websocket_relay.py:83-89 | An absent user is not connected. A tracked user is connected only when its current socket's transport state is connected. |
| Registry.GetAllConnections | backend/websocket_relay.py:212-217 | One status per tracked user, each equal to that user's `get_connection_status`. |
| Registry.BroadcastToUser | backend/websocket_relay.py:203-210 | A message is sent on the user's socket exactly when the user is connected; otherwise nothing is sent. |
| Registry.ConnectThenBroadcast | backend/websocket_relay.py:56-70 | After `connect`, a broadcast to the user is sent on the new socket exactly when that socket is connected, and broadcasts to other users are unchanged. |
| Registry.DisconnectThenBroadcast | backend/websocket_relay.py:72-81 | After `disconnect`, a broadcast to the user sends nothing. |
| Registry.CallFrame | backend/websocket_relay.py:146-150 | The call frame holds exactly `id`, `action` and `params` (no `type`), with the request's id and action. |
| Registry.BeginRequest | backend/websocket_relay.py:132-151 | Refused exactly when the user is not connected. Otherwise the fresh id is added as a waiting slot on the user's current connection, the call frame is sent on its socket, and nothing else changes. |
| Registry.ResponseOutcome | backend/websocket_relay.py:159-163 | A truthy `error` is raised as a remote error carrying it. Anything else returns `data`, defaulting to `{}`. |
| Registry.EndRequest | backend/websocket_relay.py:154-167 | The caller stays suspended exactly while its slot waits and its timer has not fired. Otherwise the outcome is the response's (if delivered), a cancellation (if cancelled) or a timeout, and the id is removed from its connection in every outcome. |
| Registry.HandleMessage | backend/websocket_relay.py:177-201 | A message for an untracked user changes nothing. Otherwise it stamps the heartbeat, and a status frame sets `ibkr_connected` (default false) and the account. A response frame fills only the waiting slot whose id it carries. Socket, identity and slot ids are kept. |
| Registry.ConnectThenStatus | backend/websocket_relay.py:56-70 | After connect, the user is connected exactly when the new socket is, and the status shows IBKR false and no account. |
| Registry.DisconnectThenStatus | backend/websocket_relay.py:72-107 | After disconnect, the user is not connected and reads as the absent-user status. |
| Registry.UnmatchedResponseChangesNoSlot | backend/websocket_relay.py:185-191 | A frame naming no waiting id (missing, empty, unknown or already done) leaves every slot of every connection unchanged. |
| Registry.ResponsesCommute | backend/websocket_relay.py:185-191 | Two response frames with different ids leave the same slots whichever arrives first. |
| Registry.HandleMessageResolves | backend/websocket_relay.py:177-191 | On a tracked user, the slots after a frame are exactly the slots before it with that frame resolved into the waiting slot it names. |
| Registry.ResolveCommutes | backend/websocket_relay.py:185-191 | Resolving two frames with different ids, or a first frame with no id, gives the same slots in either order. |
| Relay.Start | backend/websocket_relay.py:42-44 | The tunnel starts with no callers and satisfies the tunnel invariant. |
| Relay.DoConnect | backend/websocket_relay.py:56-70 | Connecting keeps the tunnel invariant and every suspended caller. |
| Relay.DoDisconnect | backend/websocket_relay.py:72-81 | Disconnecting keeps the tunnel invariant and every suspended caller. |
| Relay.DoBegin | backend/websocket_relay.py:132-151 | An unconnected user fails fast with the system unchanged. Otherwise one new caller is suspended on the user's connection with a waiting slot, and the invariant holds. |
| Relay.DoEnd | backend/websocket_relay.py:154-167 | A resumed caller leaves the set of callers, and its id is pending on no connection at all. |
| Relay.DoReceive | backend/websocket_relay.py:169-201 | Receiving a frame keeps the invariant and every caller. |
| Relay.BeginKeepsInv | backend/websocket_relay.py:132-151 | For a connected user and a fresh id, the request is sent, and adding the new caller keeps the tunnel invariant. |
| Relay.EndKeepsInv | backend/websocket_relay.py:154-167 | A caller that resumes leaves the invariant intact, and its id is pending nowhere. |
| Relay.EndRemovesOnlyItsSlot | backend/websocket_relay.py:154-167 | Ending a call keeps every connection, removes the call's own slot and keeps every other slot with its state. |
| Relay.DropKeepsInv | backend/websocket_relay.py:154-167 | Dropping one caller and its slot, changing nothing else, keeps the tunnel invariant and leaves the id pending nowhere. |
| Relay.DisconnectKeepsInv | backend/websocket_relay.py:72-81 | Disconnect keeps the invariant: slot ids stay where they were and waiting slots only become cancelled. |
| Relay.DisconnectIsSlotStep | backend/websocket_relay.py:72-81 | Disconnect keeps every connection and slot id, and fills no slot with a response. |
| Relay.ReceiveKeepsInv | backend/websocket_relay.py:169-201 | Receiving a frame keeps the invariant. |
| Relay.ReceiveIsSlotStep | backend/websocket_relay.py:177-201 | A received frame keeps every connection and slot id. A slot it changes holds a frame carrying that slot's own id. |
| Relay.SlotStepKeepsInv | backend/websocket_relay.py:72-201 | Any step that keeps connections and slot ids, and fills slots only with frames carrying their ids, keeps the tunnel invariant. |
| Relay.EndOfDelivered | backend/websocket_relay.py:154-163 | A caller whose slot holds a response resumes with that response's outcome, whether or not its timer fired. |
| Relay.EndKeepsOtherCall | backend/websocket_relay.py:165-167 | Ending one call leaves every other caller, and that caller's slot, as it was. |
| Relay.Next | backend/websocket_relay.py:56-201 | Every enabled atomic step keeps the tunnel invariant. |
| Relay.RunKeepsInv | backend/websocket_relay.py:56-201 | Every run of steps from a valid tunnel keeps the invariant. |
| Relay.EndDeliversOwnResponse | backend/websocket_relay.py:155-191 | A caller that gets data or a remote error got it from a response frame carrying its own id. |
| Relay.ReceiveResolvesOnlyItsCaller | backend/websocket_relay.py:185-191 | A frame changes a caller's slot only if it carries that caller's id, on the user's tracked connection, while the slot waits. The slot then holds that frame. |
| Relay.LateReplyIsDropped | backend/websocket_relay.py:165-191 | After a caller has resumed (in any outcome), a late reply for its id changes no slot anywhere. |
| Relay.DisconnectCancelsCallers | backend/websocket_relay.py:76-80 | After disconnect, a caller waiting on that user's connection resumes at once with a cancellation. |
| Relay.DetachedConnectionFrozen | backend/websocket_relay.py:58-68 | A superseded connection is never touched again: no step other than its own callers ending changes its slots. |
| Relay.OrphanOnlyTimesOut | backend/websocket_relay.py:58-157 | A caller waiting on a superseded connection resumes only when its timer fires, and then times out. |
| Relay.ConnectDetachesOld | backend/websocket_relay.py:58-68 | Reconnecting keeps the old connection object unchanged (its pending slots are not cancelled), and no user's entry points at it any more. |
| Relay.NotConnectedFailsFast | backend/websocket_relay.py:132-133 | A request to an unconnected user fails with ConnectionError, registers no slot and sends nothing. |
| Tunnel.AgentReplyToCallFrame | backend/websocket_relay.py:146-150 | The agent's reply to a call frame echoes its id as a response frame. The caller's reading of it is the action's result, or the agent's error. |
| Tunnel.ReceiveThenEnd | backend/websocket_relay.py:154-191 | A response routed to a waiting caller on the tracked connection ends that call with the frame's outcome. |
| Tunnel.RoundTrip | backend/websocket_relay.py:132-167 | One call end to end (begin, the agent's reply received, end) gives the caller exactly the outcome the agent's action determines, and leaves the call's id pending on no connection. |
| Tunnel.StatusReachesRegistry | relay-agent/relay_agent.py:118-128 | The agent's status frame, once received, makes the registry report the agent's gateway state and first account. |
| Tunnel.TwoBegins | backend/websocket_relay.py:132-151 | Two requests with distinct fresh ids leave both callers waiting on the same connection. |
| Tunnel.ResponsesRoutedById | backend/websocket_relay.py:185-191 | Replies arriving in the opposite order of the requests still reach the caller whose id they carry. |
| Tunnel.RepliesInEitherOrder | backend/websocket_relay.py:132-191 | Two concurrent calls answered out of order each get their own action's result. |
| Proxy.ProxyIsConnected | backend/websocket_relay.py:237-240 | The proxy's `is_connected` is the agent's last reported gateway status (false for an absent user), not the tunnel's state. |
| Proxy.ActionName | backend/websocket_relay.py:246-336 | Every proxy method sends an action name the agent recognises. |
| Proxy.ParamsOf | backend/websocket_relay.py:246-336 | `get_accounts` sends no params. The account calls send exactly the account (None when absent). The symbol and expiry calls send them as given; `get_option_data` sends exactly symbol, expiry, strike and option type; `get_option_chain` always sends `strikes`, null exactly when none were given. |
| Proxy.TimeoutOf | backend/websocket_relay.py:246-336 | The timeout is 60 s exactly for `get_option_chain`, and 30 s for every other call. |
| Proxy.ResultOf | backend/websocket_relay.py:246-336 | On a dict the lookup always succeeds and gives the value at the key the agent's handler answers with, or the method's default when the key is missing: None for `get_price`, an empty list for the other lookups. `get_option_data` and `get_option_chain` return the data itself. On anything but a dict only those two succeed; for the rest `.get` raises the AttributeError text. |
| Proxy.EmptyDataReadsDefault | backend/websocket_relay.py:160-163 | An agent reply whose error text is empty reads as success with data `{}`, which every proxy method turns into its default: None for the price, an empty list for the other lookups, `{}` for the quote and the chain. |
| Proxy.HandlerOf | backend/websocket_relay.py:246-336 | The agent's dispatch maps the call's action name to this handler. |
| Proxy.ParamsOfIntended | backend/websocket_relay.py:319-336 | Corrected parameters: identical to the code's except that an absent strikes list is left out of the frame. |
| Proxy.ProxyActionsAreDispatched | backend/websocket_relay.py:246-336 | Every proxy call names an action the agent recognises, to the handler of the same purpose, and distinct operations use distinct names. |
| Proxy.ProxyReadsAgentData | backend/websocket_relay.py:246-297 | Whenever the agent's action succeeds, its data is a dict and the proxy's key lookup succeeds on it, yielding one of its values. For `get_accounts` the result is the account list. |
| Proxy.ChainWithoutStrikesIsAnError | backend/websocket_relay.py:319-336 | As written, `get_option_chain` without strikes always comes back as the agent's "'NoneType' object is not subscriptable" error. |
| Proxy.ChainWithoutStrikesIsEmpty | backend/websocket_relay.py:319-336 | With the corrected parameters, the same call returns an empty chain. |
| Proxy.NullStrikesFail | relay-agent/relay_agent.py:303-310 | A `strikes` parameter that is null makes the chain action fail with the slicing TypeError. |
| Proxy.HandledByItsAction | backend/websocket_relay.py:246-336 | On a connected gateway, the agent answers any proxy call frame with the reply of the handler for that call, run on the parameters sent (or `{}`). |
| Proxy.MissingStrikesGiveEmptyChain | relay-agent/relay_agent.py:303-310 | A chain request with a symbol and no `strikes` key asks for no contracts and returns empty call and put lists. |
| Agent.HandlerForKnown | relay-agent/relay_agent.py:177-341 | The dispatch recognises exactly the eight action names. |
| Agent.SymbolParam | relay-agent/relay_agent.py:224 | `params.get("symbol", "").upper()` succeeds exactly when the params are a dict whose symbol (default "") is a string, and gives it upper-cased. |
| Agent.RunAccounts | relay-agent/relay_agent.py:177-179 | Always succeeds with exactly the key `accounts`, listing the managed accounts in order. |
| Agent.RunPositions | relay-agent/relay_agent.py:181-201 | Fails on non-dict params with the AttributeError text of `.get`. Otherwise succeeds exactly when the gateway's positions for the account do, with their error otherwise, and then holds exactly `positions` with those rows. |
| Agent.RunPortfolio | relay-agent/relay_agent.py:203-221 | Fails on non-dict params with the AttributeError text of `.get`. Otherwise succeeds exactly when the gateway's portfolio for the account does, with its error otherwise, and then holds exactly `portfolio` with those rows. |
| Agent.RunPrice | relay-agent/relay_agent.py:223-236 | Fails with the symbol's error when the symbol cannot be read. Otherwise succeeds exactly when the gateway's price does, with its error otherwise, and then holds exactly `price` with that value. |
| Agent.RunExpirations | relay-agent/relay_agent.py:238-254 | Succeeds exactly when the symbol can be read and the chains request succeeds; otherwise fails with the symbol's error or else the chains request's error. On success it holds exactly `expirations`: the sorted union of the chains' expirations. |
| Agent.RunStrikes | relay-agent/relay_agent.py:256-275 | Succeeds exactly when the symbol can be read and the chains request succeeds; otherwise fails with the symbol's error or else the chains request's error. On success it holds exactly `strikes`: the sorted union of the strikes of chains listing the expiry. |
| Agent.RunOptionData | relay-agent/relay_agent.py:277-301 | Fails with the symbol's error when the symbol cannot be read, and with the option type's error when that is not a string. Once the symbol and option type are read, the answer succeeds exactly when the gateway's ticker for (symbol, expiry, strike with default 0, right) does, carries its error otherwise, and on success is the nine-key quote of that ticker. |
| Agent.RunOptionChain | relay-agent/relay_agent.py:303-336 | Fails with the symbol's error when the symbol cannot be read. Once it is read, the answer succeeds exactly when `strikes[:20]` does (with its error otherwise), and its `calls` and `puts` are the lists the chain loop builds over those strikes, each of at most 20 entries. |
| Agent.OneContractQuote | relay-agent/relay_agent.py:277-301 | For explicit symbol, expiry, strike and a "C" or "P" type, `get_option_data` is the upper-cased symbol's ticker quote, or that ticker's error. |
| Agent.OneStrikeChain | relay-agent/relay_agent.py:303-336 | A chain request for a single strike succeeds, with the calls and puts the chain loop builds over that one strike. |
| Agent.OptionDataAgreesWithChain | relay-agent/relay_agent.py:277-336 | Under one gateway state (one fixed ticker answer per contract), for one contract `get_option_data` succeeds exactly when the one-strike `get_option_chain` lists an entry on that side, and then that entry's bid, ask, last, volume, delta and iv are the option data's. |
| Agent.ChainEntryQuotes | relay-agent/relay_agent.py:291-328 | Under one gateway state, a chain entry and the option data of the same ticker agree on the six shared quote keys. |
| Agent.Run | relay-agent/relay_agent.py:177-336 | A successful action returns a dict carrying its own data key. `get_accounts` always succeeds, and every other action fails on non-dict params. |
| Agent.StrValues | relay-agent/relay_agent.py:177-179 | Strings become JSON strings, element for element. |
| Agent.FloatValues | relay-agent/relay_agent.py:270-275 | Reals become JSON floats, element for element. |
| Agent.AllExpirations | relay-agent/relay_agent.py:248-253 | The concatenated expirations are exactly those listed by some chain. |
| Agent.MatchingStrikes | relay-agent/relay_agent.py:268-273 | The concatenated strikes are exactly those of chains that list the requested expiry. |
| Agent.ExpirationUnion | relay-agent/relay_agent.py:250-254 | The expirations answer is strictly ascending and duplicate-free, and contains exactly the expirations of some chain. |
| Agent.StrikeUnion | relay-agent/relay_agent.py:270-275 | The strikes answer is strictly ascending, and contains exactly the strikes of chains that list the requested expiry. |
| Agent.First20 | relay-agent/relay_agent.py:310 | `strikes[:20]` succeeds only on a list or a string, keeps at most 20 items (a list's first ones), and raises the TypeError on None. |
| Agent.ChainLoop | relay-agent/relay_agent.py:308-336 | Each strike adds at most one call entry and one put entry. No strikes give empty lists; one strike gives exactly the call entry and the put entry of its two tickers, each present exactly when its ticker succeeds. |
| Agent.ChainLoopSplits | relay-agent/relay_agent.py:310-336 | The chain over `a + b` is the chain over `a` followed by the chain over `b`. With the one-strike case of `ChainLoop`, this fixes every entry: each strike contributes its own tickers' entries, in strike order. |
| Agent.QuotedContractHasEntry | relay-agent/relay_agent.py:310-336 | Every requested strike whose call (put) ticker succeeds has its entry among the calls (puts). |
| Agent.ChainEntriesFromStrikes | relay-agent/relay_agent.py:308-333 | Every chain entry is for one of the requested strikes. |
| Agent.RightFor | relay-agent/relay_agent.py:281-283 | The right is "C" exactly when the upper-cased option type is "C" or "CALL", "P" otherwise. A non-string option type raises. |
| Agent.ExecuteAction | relay-agent/relay_agent.py:340-341 | An unrecognised action raises "Unknown action: <action>". |
| Agent.HandleRequest | relay-agent/relay_agent.py:135-172 | Every reply is a response frame echoing the request's id (default "unknown") with exactly one of `data` or `error`. Without a connected gateway the error is "IB Gateway not connected"; an unknown action gives the unknown-action error. |
| Agent.ReplyMatchesAction | relay-agent/relay_agent.py:150-172 | With a connected gateway the reply carries data exactly when the action succeeds, and then it is that action's result; otherwise it carries the action's error text. |
| Agent.StatusFrame | relay-agent/relay_agent.py:118-128 | Nothing is sent without a socket. Otherwise the status frame reports IBKR false and account None without a session, else the session's state and its first managed account (None when there is none). |
| Agent.Requests | relay-agent/relay_agent.py:349-357 | The requests are the decodable messages whose JSON is an object, decoded and in arrival order; the other messages are dropped, so there are never more requests than messages. The membership and no-drop facts are stated in `RequestsAreDecodedObjects`, and the one-message step in `RequestsStep`. |
| Agent.RequestsAreDecodedObjects | relay-agent/relay_agent.py:348-360 | Every request answered is a decoded object among the messages, and when every message is one, none is dropped. |
| Agent.RequestsStep | relay-agent/relay_agent.py:348-360 | Reading one more message appends its object to the requests when it is one, and nothing otherwise. |
| Agent.MessageLoop | relay-agent/relay_agent.py:343-360 | Requests are answered one at a time, in order: one reply per decodable object message, each the handled reply to its request, and each well formed. |
| Agent.Serve | relay-agent/relay_agent.py:348-360 | For any handler, one reply per request, in request order, each the handler's reply to its request. |
| AgentLifecycle.LoopHead | relay-agent/relay_agent.py:381 | The loop goes on to connecting exactly while `running`, otherwise exits, and changes no session. |
| AgentLifecycle.Teardown | relay-agent/relay_agent.py:407-411 | Both sessions end down. The IB session is disconnected exactly when it was up, and the socket closed exactly when there was one. |
| AgentLifecycle.DoStop | relay-agent/relay_agent.py:417-423 | `stop` clears `running` and takes the IB session down. It closes a socket that is there but keeps the reference. |
| AgentLifecycle.InitInv | relay-agent/relay_agent.py:46-63 | The new agent satisfies the per-phase invariant. |
| AgentLifecycle.StepKeepsInv | relay-agent/relay_agent.py:372-423 | Every step keeps the per-phase invariant. |
| AgentLifecycle.RunKeepsInv | relay-agent/relay_agent.py:372-423 | Every run of events keeps the per-phase invariant. |
| AgentLifecycle.ServerOnlyAfterIbkr | relay-agent/relay_agent.py:384-393 | The server connection is attempted only right after a successful IBKR connection, with the IB session up. |
| AgentLifecycle.StatusBeforeLoops | relay-agent/relay_agent.py:396-402 | The message and heartbeat loops start only right after the initial status frame is sent. |
| AgentLifecycle.TeardownEndsEveryIteration | relay-agent/relay_agent.py:384-411 | Every iteration that ends (retry or gather done) tears down both sessions. |
| AgentLifecycle.IterationStartsClean | relay-agent/relay_agent.py:381-415 | Each new iteration starts while running, with both sessions down. |
| AgentLifecycle.StopIsFinal | relay-agent/relay_agent.py:413-423 | Once stopped, no step sets `running` again or starts an iteration. |
| AgentLifecycle.StoppedAgentStartsNoIteration | relay-agent/relay_agent.py:381-423 | A stopped agent never starts another iteration, whatever events follow. |
| AgentLifecycle.StopThenNoNewIteration | relay-agent/relay_agent.py:381-423 | After `stop`, from any state of the loop, no further iteration starts. |
| AgentLifecycle.ExitedIsTerminal | relay-agent/relay_agent.py:381 | After the loop has exited, every event leaves the agent unchanged with no effect. |
| AgentLifecycle.NeverReconnectsAfterServerDrop | relay-agent/relay_agent.py:362-402 | As written: once serving while running, no sequence of events without `stop` ever leaves the serving phase, so a dropped server connection is never re-established. |
| AgentLifecycle.IntendedReconnectsAfterServerDrop | relay-agent/relay_agent.py:399-415 | With the gather ending when the message loop ends: after the server closes the socket, the agent tears down and is back at connecting with both sessions down. |
| Encryption.NormalizeKey | backend/encryption.py:23-38 | An empty key is "ENCRYPTION_KEY not configured". A 32-character key is base64 of its bytes, a 44-character key is used as is, and any other key is base64 of its SHA-256. |
| Encryption.NormalizedKeyIsFernetSized | backend/encryption.py:27-38 | Every set key (an ASCII one when it has 32 characters) normalises to 44 characters, the size of an encoded Fernet key. |
| Encryption.NormalizedKeyIsAccepted | backend/encryption.py:28-40 | A key of any length other than 44 normalises to a key the cipher accepts. |
| Encryption.FernetKey | backend/encryption.py:20-42 | The cipher is available exactly when normalisation succeeds and the cipher accepts the result. |
| Encryption.Encrypt | backend/encryption.py:53-58 | Empty text encrypts to "" without the key. Otherwise it fails exactly when the key is unusable, and seals the text under the normalised key. |
| Encryption.Decrypt | backend/encryption.py:69-78 | Empty text decrypts to "" without the key. Otherwise a key error propagates, an invalid token reads as "", and a valid token gives the plaintext the cipher opens it to. |
| Encryption.EncryptApiKey | backend/encryption.py:89-94 | With no key configured the API key is stored as is; otherwise it is encrypted. |
| Encryption.DecryptApiKey | backend/encryption.py:97-101 | With no key configured the stored text is returned as is; otherwise it is decrypted. |
| Encryption.ApiKeyRoundTrip | backend/encryption.py:89-101 | Storing then reading an API key gives it back, whether or not a key is configured. |
| Encryption.EmptyTextNeedsNoKey | backend/encryption.py:53-70 | Encrypting and decrypting "" give "" whatever the key. |
| Encryption.Stars | backend/encryption.py:108 | `'*' * n` is n asterisks. |
| Encryption.MaskApiKey | backend/encryption.py:104-108 | A key shorter than 8 characters (the empty key included) masks to "****". A longer one keeps its length and last four characters, with every earlier character replaced by '*'. |
| Encryption.MaskRevealsOnlyLengthAndTail | backend/encryption.py:106-108 | Keys that agree in length (when at least 8) and last four characters have the same mask. |
| Encryption.MaskIsIdempotent | backend/encryption.py:106-108 | Masking a mask changes nothing. |
| Scanner.IvBonus | backend/main.py:530-535 | IV adds 20 above 0.5, 10 above 0.3 up to 0.5, and nothing when missing, zero or at most 0.3. |
| Scanner.DeltaBonus | backend/main.py:538-544 | Delta adds 15 when its magnitude is in [0.20, 0.30], 10 when otherwise in [0.15, 0.35], and nothing when missing or zero. |
| Scanner.DteBonus | backend/main.py:547-550 | DTE adds 15 in [30, 45], 10 when otherwise in [21, 50], and 0 outside. |
| Scanner.SpreadBonus | backend/main.py:553-560 | The spread adds 10 below 5% and 5 below 10%, and only when bid and ask are nonzero and ask is positive. |
| Scanner.Score | backend/main.py:525-562 | The score is the raw sum capped at 100, and always lies in [50, 100]. |
| Scanner.RawScoreCanExceed100 | backend/main.py:527-562 | The cap is needed: the top tiers sum to 110. |
| Scanner.ScoreMonotoneInIv | backend/main.py:530-535 | A higher positive IV never lowers the score. |
| Scanner.ScoreIgnoresDeltaSign | backend/main.py:538-541 | A delta and its negation score the same. |
| Scanner.Right | backend/main.py:481 | The right is 'P' exactly for the "csp" and "ps" strategies, and 'C' otherwise. |
| Scanner.ValidExpirations | backend/main.py:460-468 | An expiration is kept, with its DTE, exactly when its date parses and its DTE is in [min_dte, max_dte]. |
| Scanner.Band | backend/main.py:474-478 | A strike is kept exactly when it lies within 0.8 to 1.2 times the stock price. |
| Scanner.ScanStrikes | backend/main.py:484-513 | Every row passes the bid, delta and band filters and carries its own score. There are no more rows than strikes, each for one of the strikes and this expiry. The loop stops early exactly when some strike's quote request raises. |
| Scanner.ScanStrikesComplete | backend/main.py:484-510 | Every strike whose quote is accepted, with no raising request up to it, has its row. |
| Scanner.Candidates | backend/main.py:474-484 | At most five strikes are looked at per expiration, each a listed strike within the band. |
| Scanner.ScanExpirations | backend/main.py:471-513 | Every row passes the filters, with at most five rows per expiration. |
| Scanner.ScanExpirationsComplete | backend/main.py:471-510 | When no call for these expirations raises, every accepted quote of every candidate strike of every expiration has its row. |
| Scanner.Picked | backend/main.py:459-471 | At most two expirations are looked at, each a listed one with a parsable date and its DTE in range. |
| Scanner.ScanSymbol | backend/main.py:449-517 | A symbol yields at most 10 rows (two expirations, five strikes each), all for that symbol and passing the filters. A failing or falsy price or a failing expirations request yields none; another exception keeps the rows found before it. |
| Scanner.ScanSymbolComplete | backend/main.py:449-513 | For a truthy price whose calls do not raise, every accepted quote of the first five in-band strikes of each of the first two valid expirations has its row. |
| Scanner.ScanAll | backend/main.py:448-517 | Every row is for a requested symbol and passes the filters. |
| Scanner.ScanAllKeepsSymbolRows | backend/main.py:448-517 | Every row found for any requested symbol is among the scan's rows. |
| Scanner.InsertByScore | backend/main.py:520 | Inserting into a descending list keeps it descending and is a permutation of the list plus the row. |
| Scanner.SortByScore | backend/main.py:520 | The rows sorted by descending score are a permutation of the input. |
| Scanner.RunScan | backend/main.py:442-522 | The scan fails with "Not connected to IBKR" exactly when the service is not connected. Otherwise it returns at most 20 rows in descending score order. |
| Scanner.PrefixIsTop | backend/main.py:520-522 | A prefix of a descending list is a sub-multiset of it, and nothing outside the prefix scores higher than anything in it. |
| Scanner.PrefixSplit | backend/main.py:520-522 | A list is the multiset union of its first n elements and the rest, so removing the prefix leaves exactly the rest. |
| Scanner.PrefixDominates | backend/main.py:520-522 | In a list sorted by descending score, every element of a prefix scores at least as high as every element after it. |
| Scanner.ScanIsTopTwenty | backend/main.py:446-522 | The result is the best min(20, n) of the rows found: every row passes the filters, and no omitted row scores higher than a returned one. |
| Scanner.CcLotsBounds | backend/main.py:590-593 | The lots never need more shares than are held; each holding leaves fewer than 100 shares over; the count is non-negative for non-negative holdings. |
| Scanner.CcLots | backend/main.py:590-593 | Holdings all under 100 shares give no lots, and holdings in whole hundreds give exactly a hundredth of the shares. |
| Scanner.CcLotsAppend | backend/main.py:590-593 | Lots add up over a split of the holdings. |
| Parity.Classify | backend/put_call_parity.py:53-83 | The violation is the market spread less the parity value. The percentage is of the strike, or 0 for a non-positive strike. A violation means the percentage exceeds the threshold; a violation is call-overpriced exactly when the dollars are positive and put-overpriced otherwise. |
| Parity.ClassifyBySign | backend/put_call_parity.py:62-74 | With a positive strike, whether a violation is flagged and its direction follow from the dollar amount alone. |
| Parity.ExactParityIsNoViolation | backend/put_call_parity.py:53-74 | Prices satisfying parity exactly are never flagged. |
| Parity.NonPositiveStrikeIsNoViolation | backend/put_call_parity.py:62-74 | With a non-positive strike nothing is flagged. |
| Parity.SyntheticPrices | backend/put_call_parity.py:114-123 | The synthetic call is None exactly when the put price is, and the synthetic put exactly when the call price is. Each satisfies parity with the price it came from. |
| Parity.SyntheticRoundTrip | backend/put_call_parity.py:117-118 | The synthetic put of a synthetic call is the original put, and the other way round. |
| Parity.SyntheticCallSatisfiesParity | backend/put_call_parity.py:62-117 | A synthetic call priced from a put is never flagged against that put. |
| Parity.MetricValue | backend/put_call_parity.py:152-153 | A metric is absent when missing or None, and raises when it is a string, list or dict. |
| Parity.PresentCountFront | backend/put_call_parity.py:150-154 | Counting present metrics from the front agrees with counting from the back. |
| Parity.MetricValues | backend/put_call_parity.py:150-154 | The present metric values are collected in order, one per option carrying one, or the first error is raised. |
| Parity.ZScore | backend/put_call_parity.py:172-179 | The z-score is (value − mean) / std when the value is present and std is positive, otherwise 0 and not an outlier. With a value and a positive std, the option is an outlier exactly when its z-score exceeds the threshold in magnitude. |
| Parity.DetectOutliers | backend/put_call_parity.py:146-189 | An empty input gives []. The detector fails exactly when a metric cannot be read, and returns one annotated option per input option. |
| Parity.OutliersAnnotateInPlace | backend/put_call_parity.py:156-187 | Each option keeps its other fields and gains the four statistics. With fewer than 3 values the mean and std are None, the z-score 0.0 and the flag false. |
| Parity.AnnotateFields | backend/put_call_parity.py:181-185 | Annotation adds exactly the four metric keys with the given values, and keeps every other field. |
| Parity.OutlierNeedsLargeZ | backend/put_call_parity.py:156-176 | A flagged option has its own metric present, at least 3 values were present, std is positive, and its z-score exceeds the threshold. |
| Parity.ViolationPoints | backend/put_call_parity.py:217-224 | Violations score 50, 40 or 30 for magnitudes of at least 5, 3 or 2, and nothing unless flagged. |
| Parity.IvPoints | backend/put_call_parity.py:227-234 | IV outliers score 30, 20 or 15 for magnitudes of at least 3, 2.5 or 2, and nothing unless flagged. |
| Parity.VolumePoints | backend/put_call_parity.py:237-240 | Volume scores 10 from 500, 5 from 200, and nothing below. |
| Parity.MoneynessPoints | backend/put_call_parity.py:244-247 | Moneyness scores 10 in [0.95, 1.05], 5 when otherwise in [0.90, 1.10], and nothing outside. |
| Parity.OpportunityScore | backend/put_call_parity.py:214-249 | The score lies in [0, 100]. |
| Parity.ScoreIsUncappedSum | backend/put_call_parity.py:214-249 | The cap never binds: the score is the plain sum of its four parts. |
| Parity.FlaggedViolationsScore | backend/put_call_parity.py:217-224 | At the default threshold or above, every flagged violation earns violation points. |
| Parity.FlaggedOutliersScore | backend/put_call_parity.py:227-234 | At threshold 2 or above, every flagged outlier earns IV points. |
| Positions.Allowed | backend/database.py:211-217 | The kept updates are exactly those whose field is on the nine-field allow-list, with distinct keys kept distinct. No updates keep nothing, and one update is kept exactly when its field is allowed. |
| Positions.AllowedAppend | backend/database.py:217 | Filtering a concatenation is filtering each part: the kept updates come out in input order. |
| Positions.PlaceholdersAppend | backend/database.py:221 | Placeholders add up over concatenation. |
| Positions.NoPlaceholderCount | backend/database.py:221 | A field name without '?' contributes no placeholder. |
| Positions.SetClausePlaceholders | backend/database.py:221 | The SET clause holds one placeholder per field. |
| Positions.Keys | backend/database.py:221 | The field names of the updates, in order. |
| Positions.Values | backend/database.py:222 | The values of the updates, in order. |
| Positions.PlanUpdate | backend/database.py:206-222 | No statement is planned exactly when no update's field is allowed (so never for no updates). Otherwise the SET clause names the allowed fields, in input order, and the bound values are theirs followed by the position id. |
| Positions.UpdatePosition | backend/database.py:206-232 | True exactly when a statement was planned and it changed a row, so never for no updates. |
| Positions.UpdateBindsEveryPlaceholder | backend/database.py:221-230 | The statement binds exactly one value per placeholder: one per allowed field plus the id. |
| Positions.AllowedKeysHaveNoPlaceholder | backend/database.py:211-221 | No allowed field name contains a placeholder, so the SET clause has only its own. |
| Positions.Pnl | backend/database.py:392 | Without a close price the pnl is the whole premium times quantity times 100; with a nonzero close and a positive quantity it is positive exactly when the close is below the premium; a zero quantity gives 0. |
| Positions.ToTrade | backend/database.py:391-397 | The trade carries the row's underlying, its strategy and its pnl. |
| Positions.Trades | backend/database.py:389-397 | One trade per closed row, with pnl (premium − (close or 0)) · quantity · 100. |
| Positions.Wins | backend/database.py:399 | The wins are exactly the trades with positive pnl. |
| Positions.Losses | backend/database.py:400 | The losses are exactly the trades with non-positive pnl. |
| Positions.WinsAndLossesPartition | backend/database.py:399-408 | Wins and losses partition the trades. |
| Positions.SumOfWinsPositive | backend/database.py:402 | Total wins are non-negative, and positive when there is a win. |
| Positions.SumOfLossesNonPositive | backend/database.py:403 | The summed losses are at most zero. |
| Positions.Best | backend/database.py:413 | The best trade is one of the trades, with the largest pnl, and it is the first of the trades with that pnl (every earlier trade has a smaller one). |
| Positions.Worst | backend/database.py:414 | The worst trade is one of the trades, with the smallest pnl, and it is the first of the trades with that pnl (every earlier trade has a larger one). |
| Positions.FirstShifts | backend/database.py:413-414 | A trade that comes first among its ties in the tail, and beats the head strictly, comes first among its ties in the whole list. |
| Positions.WinRate | backend/database.py:409 | The win rate is the percentage of winning trades: times the trade count it gives 100 times the wins, and it lies within [0, 100]. |
| Positions.Average | backend/database.py:411-412 | The average is the total over the count (times the count it gives the total), or 0 for no items, and never negative. |
| Positions.ProfitFactor | backend/database.py:415 | The profit factor is infinite exactly when nothing was lost; otherwise it is non-negative and times the losses gives the wins. |
| Positions.StatsOf | backend/database.py:399-415 | For a non-empty list of trades: the counts are those of the wins and losses and add to the total; the total pnl is the sum; the win rate, the two averages and the finite profit factor are the stated quotients; the profit factor is infinite exactly when the losses sum to 0; best and worst are `Best` and `Worst`. |
| Positions.PerformanceStats | backend/database.py:375-416 | With no rows, everything is zero and best/worst are None. Otherwise every figure is the one `StatsOf` states for the closed rows' trades: counts, total, win rate, averages as quotients, the profit factor, and best and worst as the first trades with the largest and smallest pnl, which bound every trade. |
| Positions.StatsIgnoreOrder | backend/database.py:389-409 | Swapping two blocks of closed rows (`a + b` against `b + a`) leaves the trade, win and loss counts and the win rate as they were. |
| Positions.TotalIgnoresOrder | backend/database.py:389-410 | Swapping two blocks of closed rows leaves the total P&L as it was. |
| Positions.SumPnlAppend | backend/database.py:410 | The P&L sum distributes over concatenation. |
| Positions.TradesAppend | backend/database.py:389-397 | Trades distribute over concatenation. |
| Positions.WinsAppend | backend/database.py:399 | Wins distribute over concatenation. |
| Positions.HoldingDerived | backend/database.py:254-255 | The market value is present exactly when the current price is truthy, and then is quantity times the price. The unrealized P&L is present exactly when both current price and average cost are truthy, and then is quantity times the difference of price and cost. |
| Positions.UnrealizedIsValueLessCost | backend/database.py:254-255 | When both are present, the unrealized P&L is the market value less quantity times average cost. |
| Ordering.SortedUnique | relay-agent/relay_agent.py:254-275 | `sorted(set(...))`: the result is strictly ascending and holds exactly the input's elements. |
| Ordering.StrLessIsStrictTotalOrder | relay-agent/relay_agent.py:254 | Python's string comparison is a strict total order. |
| Ordering.RealLessIsStrictTotalOrder | relay-agent/relay_agent.py:275 | The order on strikes is a strict total order. |
| Ordering.StrictlySortedIsDistinct | relay-agent/relay_agent.py:254 | A strictly ascending list has no duplicates. |
| Json.GetFrom | relay-agent/relay_agent.py:239-258 | `params.get(key, default)` gives the value or the default on a dict, and raises the AttributeError text on anything else. |
| Json.Upper | relay-agent/relay_agent.py:239 | `.upper()` upper-cases a string letter by letter and raises on any other value. |

## Left out

- Concurrency and time: the `asyncio.Lock`, futures, `wait_for` deadlines, `gather`, sleeps, the 30 s heartbeat interval and the signal handlers. A timeout is the `timerFired` event and a sleep is the `SleepElapsed` event; the timeout value is only recorded.
- Socket and HTTP I/O, and JSON (de)serialisation beyond the frames' fields. The model assumes every send and close succeeds. In the code a failed send in `broadcast_to_user` or `send_status` is logged and a failed close in `connect` is swallowed, but a failed `send_json` in `send_request` raises to the caller.
- Registry.BeginRequest / Relay.DoBegin: a failed `send_json` is not modelled. In the code the exception reaches the caller after the `finally` has removed the slot; the model always sends the frame and suspends the caller.
- ib_insync: every gateway answer (accounts, positions, prices, chains, tickers, qualification and the NaN fallbacks) is an abstract function of `Agent.Gateway`, and the scanner's service is `Scanner.Market`. Date parsing in the scan is `daysTo`, with `None` for an unparsable date.
- Fernet, base64, SHA-256 and UTF-8 are the abstract fields of `Encryption.Crypto`, and the time and IV in a token are one `nonce`. The cached `_fernet` instance is not modelled: each call normalises the key afresh, which gives the same answers while the key does not change.
- Floating point: prices and thresholds are exact reals, so literals such as 0.2 and 0.05 are exact. NaN does not arise. `float('inf')` is `Positions.Infinite`. `math.exp(-rT)` is the `discount` parameter, and numpy's mean and sample standard deviation are the `moments` parameter.
- The percentages and ratios in the statistics are reals; Python's float rounding is not modelled.
- Timestamps: `connected_at`/`last_heartbeat` are `now: int`, `isoformat()` text is the time itself, and the status frame's timestamp is a parameter.
- `str()` of a float, list or dict in the "Unknown action" text is a fixed placeholder. `upper()` maps ASCII letters only.
- `handle_message` with an unhashable `id` (a list or dict) raises TypeError in the code; the model treats any non-string id as unmatched.
- SQL text: the whitespace and the `updated_at = CURRENT_TIMESTAMP` part of the UPDATE are not modelled, only the SET clause and the bound values. The INSERT/UPSERT statement and its COALESCE rules are not modelled, only the two derived fields.
- `get_status`, `get_ibkr_proxy` and the other database functions outside the aggregation, filter and derived fields are not part of this model.
- Relay.RunKeepsInv: one transport-state function is fixed for the whole run, so a socket's state does not change between steps within a run. Every single step keeps the invariant under any transport state.
- Scanner.SortByScore: states descending order and permutation, not the stability of Python's sort (the insertion is stable but no lemma says so).
- Scanner.Band and Scanner.ValidExpirations: state membership, not that the kept items keep their input order.
- Scanner.ScanSymbolComplete / Scanner.ScanExpirationsComplete: completeness is stated for the case where no market call for the symbol raises. When one raises, `ScanStrikes` states which rows before it are kept.
- Agent.OptionDataAgreesWithChain / Agent.ChainEntryQuotes: the two actions take separate market snapshots (after waits of 2 s and 0.5 s). The model answers both from one fixed `ticker` function, so the agreement holds only under one gateway state; the program does not promise it.
- Agent.First20: on a dict, the error text is the one Python gives before 3.12 ("unhashable type: 'slice'"). From 3.12 slices are hashable and `{}[:20]` raises KeyError instead. Either way the request fails.
- Positions.StatsIgnoreOrder / Positions.TotalIgnoresOrder: state invariance under swapping two blocks, not under every permutation, and do not cover the averages, the profit factor or best and worst.
- Scanner.ScanSymbol: an exception is `Err` from the service, and the rows found before it are kept; which call raised is not recorded.
- Parity.DetectOutliers: the outlier test on NaN values is not modelled, and the annotations are added to a copy rather than mutating the caller's dicts.
- AgentLifecycle.Step: there is no event for the IB Gateway session dropping on its own while serving. The IB-up flag only falls through `Teardown` or `DoStop`.
- AgentLifecycle.Step: `connect_ibkr`/`connect_server` are success or failure events. An exception inside the gather is not a separate event, since the `finally` teardown is the same as a normal end.
- The agent's `main()`, command-line parsing, logging and the configuration loading are not modelled.

## Findings

| source | as written | input that shows it | evidently intended | confidence | as-written member | corrected member |
|---|---|---|---|---|---|---|
| relay-agent/relay_agent.py:362-370, 399-402 | `gather(message_loop, heartbeat_loop)` ends only when both loops end. The heartbeat loop runs while `running` and never breaks, because `send_status` swallows send errors. | A server-side close of the socket while `running` is true: the message loop ends, the heartbeat loop continues, and the agent never reconnects. | The iteration ends when the message loop ends, so the `finally` teardown runs and the agent reconnects after the delay. | not executed | AgentLifecycle.NeverReconnectsAfterServerDrop | AgentLifecycle.IntendedReconnectsAfterServerDrop |
| backend/websocket_relay.py:319-336 | `get_option_chain(symbol, expiry)` sends `"strikes": None`. The agent's `params.get("strikes", [])` returns that None, and `None[:20]` raises. | Any call of `get_option_chain` without strikes on a connected gateway. | An absent strikes list means no strikes, so the call returns an empty chain. | not executed | Proxy.ChainWithoutStrikesIsAnError | Proxy.ChainWithoutStrikesIsEmpty |
