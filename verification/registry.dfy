/** The cloud side of the relay tunnel: `RelayManager` and `RelayConnection`
    from backend/websocket_relay.py.

    The manager is an immutable value. Connection objects live in `heap`,
    addressed by a `ConnRef`; `table` maps each user to the one connection
    the manager currently tracks. A connection that has been superseded or
    disconnected stays in `heap` because a suspended `send_request` still
    holds a reference to it and pops its own id from it when it resumes.

    The `asyncio.Lock` and the futures become a sequential interleaving of
    atomic steps: `send_request` is split at its await points into
    `BeginRequest` (check, insert, send) and `EndRequest` (resume with the
    slot's outcome or the timer, then clean up). The socket's transport state
    belongs to Starlette and is observed through `stateOf`; the clock
    (`datetime.utcnow()`) is the `now` parameter; `uuid4()` is the `id`
    parameter, required not to be pending already. */
module Registry {
  import opened Base
  import opened Json

  type UserId = string
  type RequestId = string
  type SocketId = nat
  type ConnRef = nat

  /** Starlette's WebSocketState. */
  datatype TransportState = Connecting | Connected | Disconnected

  /** The one-shot result slot (an asyncio.Future) of one pending request. */
  datatype Slot =
    | Waiting                        // not done
    | Delivered(response: Object)    // set_result(message)
    | Cancelled                      // cancel()

  datatype Connection = Connection(
    user: UserId,
    ws: SocketId,
    connectedAt: int,
    lastHeartbeat: int,
    ibkrConnected: Value,
    ibkrAccount: Value,
    pending: map<RequestId, Slot>)

  datatype Manager = Manager(
    table: map<UserId, ConnRef>,
    heap: map<ConnRef, Connection>,
    nextRef: ConnRef)

  /** What a step does to the sockets. */
  datatype Effect =
    | Close(ws: SocketId, code: int, reason: string)
    | Send(ws: SocketId, frame: Object)

  /** Every tracked user's connection exists, belongs to that user, and
      references are allocated below `nextRef`. */
  ghost predicate Valid(m: Manager) {
    && (forall u | u in m.table :: m.table[u] in m.heap && m.heap[m.table[u]].user == u)
    && (forall r | r in m.heap :: r < m.nextRef)
  }

  function Init(): (m: Manager)
    ensures Valid(m) && m.table == map[] && m.heap == map[]
  {
    Manager(map[], map[], 0)
  }

  /** The connection tracked for `u`. */
  function Live(m: Manager, u: UserId): Connection
    requires Valid(m) && u in m.table
  {
    m.heap[m.table[u]]
  }

  /** `RelayConnection(user_id=u, websocket=ws)` with its dataclass defaults. */
  function NewConnection(u: UserId, ws: SocketId, now: int): Connection {
    Connection(u, ws, now, now, Bool(false), Null, map[])
  }

  // ------------------------------------------------------------------ connect

  /** `connect(u, ws)`: close the previous socket of `u` (if any), then track
      a fresh connection on `ws`. The previous connection's pending requests
      are NOT cancelled: its object is left as it was. */
  function Connect(m: Manager, u: UserId, ws: SocketId, now: int): (r: (Manager, seq<Effect>))
    requires Valid(m)
    ensures Valid(r.0)
    ensures r.0.table.Keys == m.table.Keys + {u}
    ensures r.0.table[u] !in m.heap
    ensures Live(r.0, u) == Connection(u, ws, now, now, Bool(false), Null, map[])
    ensures forall v | v in m.table && v != u :: r.0.table[v] == m.table[v]
    ensures forall c | c in m.heap :: c in r.0.heap && r.0.heap[c] == m.heap[c]
    ensures r.0.heap.Keys == m.heap.Keys + {r.0.table[u]}
    ensures u in m.table ==> r.1 == [Close(Live(m, u).ws, 1000, "New connection")]
    ensures u !in m.table ==> r.1 == []
  {
    var effects := if u in m.table then [Close(Live(m, u).ws, 1000, "New connection")] else [];
    var ref := m.nextRef;
    (Manager(m.table[u := ref], m.heap[ref := NewConnection(u, ws, now)], ref + 1), effects)
  }

  // --------------------------------------------------------------- disconnect

  /** Cancel every slot that is not done yet. */
  function CancelPending(p: map<RequestId, Slot>): (q: map<RequestId, Slot>)
    ensures q.Keys == p.Keys
    ensures forall k | k in p :: !q[k].Waiting?
    ensures forall k | k in p && p[k].Waiting? :: q[k] == Cancelled
    ensures forall k | k in p && !p[k].Waiting? :: q[k] == p[k]
  {
    map k | k in p :: if p[k].Waiting? then Cancelled else p[k]
  }

  /** `disconnect(u)`: stop tracking `u` and cancel its connection's
      not-yet-done slots; an untracked user changes nothing. */
  function Disconnect(m: Manager, u: UserId): (m': Manager)
    requires Valid(m)
    ensures Valid(m')
    ensures u !in m'.table
    ensures u !in m.table ==> m' == m
    ensures m'.table == m.table - {u}
    ensures m'.heap.Keys == m.heap.Keys && m'.nextRef == m.nextRef
    ensures forall c | c in m.heap && (u !in m.table || c != m.table[u]) :: m'.heap[c] == m.heap[c]
    ensures u in m.table ==>
      var old_ := Live(m, u); var new_ := m'.heap[m.table[u]];
      && new_ == old_.(pending := new_.pending)
      && new_.pending.Keys == old_.pending.Keys
      && (forall k | k in old_.pending && old_.pending[k].Waiting? :: new_.pending[k] == Cancelled)
      && (forall k | k in old_.pending && !old_.pending[k].Waiting? :: new_.pending[k] == old_.pending[k])
  {
    if u !in m.table then m
    else
      var ref := m.table[u];
      var conn := m.heap[ref];
      Manager(m.table - {u}, m.heap[ref := conn.(pending := CancelPending(conn.pending))], m.nextRef)
  }

  // ------------------------------------------------------------------- status

  /** `is_connected(u)`. */
  predicate IsConnected(m: Manager, u: UserId, stateOf: SocketId -> TransportState)
    requires Valid(m)
    ensures u !in m.table ==> !IsConnected(m, u, stateOf)
    ensures IsConnected(m, u, stateOf) ==> stateOf(Live(m, u).ws) == Connected
  {
    u in m.table && stateOf(Live(m, u).ws) == Connected
  }

  datatype Status = Status(
    connected: bool,
    ibkrConnected: Value,
    account: Value,
    connectedAt: Option<int>,
    lastHeartbeat: Option<int>)

  /** `get_connection_status(u)`. */
  function GetConnectionStatus(m: Manager, u: UserId, stateOf: SocketId -> TransportState): (s: Status)
    requires Valid(m)
    ensures s.connected == IsConnected(m, u, stateOf)
    ensures u !in m.table ==> s == Status(false, Bool(false), Null, None, None)
    ensures u in m.table ==>
      && s.ibkrConnected == Live(m, u).ibkrConnected
      && s.account == Live(m, u).ibkrAccount
      && s.connectedAt == Some(Live(m, u).connectedAt)
      && s.lastHeartbeat == Some(Live(m, u).lastHeartbeat)
  {
    if u !in m.table then Status(false, Bool(false), Null, None, None)
    else
      var c := Live(m, u);
      Status(stateOf(c.ws) == Connected, c.ibkrConnected, c.ibkrAccount, Some(c.connectedAt), Some(c.lastHeartbeat))
  }

  /** `get_all_connections()`: one status per tracked user. */
  function GetAllConnections(m: Manager, stateOf: SocketId -> TransportState): (all: map<UserId, Status>)
    requires Valid(m)
    ensures all.Keys == m.table.Keys
    ensures forall u | u in all :: all[u] == GetConnectionStatus(m, u, stateOf)
  {
    map u | u in m.table :: GetConnectionStatus(m, u, stateOf)
  }

  /** `broadcast_to_user(u, message)`: send only over a connected socket. */
  function BroadcastToUser(m: Manager, u: UserId, message: Object, stateOf: SocketId -> TransportState): (e: seq<Effect>)
    requires Valid(m)
    ensures IsConnected(m, u, stateOf) ==> e == [Send(Live(m, u).ws, message)]
    ensures !IsConnected(m, u, stateOf) ==> e == []
  {
    if IsConnected(m, u, stateOf) then [Send(Live(m, u).ws, message)] else []
  }

  // ------------------------------------------------------------- send_request

  /** The suspended caller of `send_request`, holding the connection it
      registered its slot with. */
  datatype Call = Call(user: UserId, conn: ConnRef, id: RequestId, action: string, timeout: real)

  /** How a `send_request` call ends, from the caller's point of view. */
  datatype Outcome =
    | Data(data: Value)          // returned response.get("data", {})
    | RemoteError(error: Value)  // RuntimeError(response["error"])
    | TimedOut                   // TimeoutError
    | CancelledByDisconnect      // CancelledError
    | NotConnected               // ConnectionError("IBKR relay not connected")

  datatype Begun =
    | Refused
    | Sent(mgr: Manager, call: Call, effect: Effect)

  /** `params or {}`. */
  function ParamsOrEmpty(params: Option<Object>): Object {
    if params.Some? then params.value else map[]
  }

  /** The call frame of `send_request`: id, action and params, no `type`. */
  function CallFrame(id: RequestId, action: string, params: Option<Object>): (f: Object)
    ensures f.Keys == {"id", "action", "params"}
    ensures f["id"] == Str(id) && f["action"] == Str(action)
  {
    map["id" := Str(id), "action" := Str(action), "params" := Obj(ParamsOrEmpty(params))]
  }

  /** The first atomic step of `send_request`, up to its first await. */
  function BeginRequest(m: Manager, u: UserId, action: string, params: Option<Object>, id: RequestId,
                        timeout: real, stateOf: SocketId -> TransportState): (r: Begun)
    requires Valid(m)
    requires u in m.table ==> id !in Live(m, u).pending
    ensures r.Refused? <==> !IsConnected(m, u, stateOf)
    ensures r.Sent? ==>
      && Valid(r.mgr)
      && r.mgr.table == m.table && r.mgr.heap.Keys == m.heap.Keys && r.mgr.nextRef == m.nextRef
      && r.call == Call(u, m.table[u], id, action, timeout)
      && Live(r.mgr, u) == Live(m, u).(pending := Live(m, u).pending[id := Waiting])
      && (forall c | c in m.heap && c != m.table[u] :: r.mgr.heap[c] == m.heap[c])
      && r.effect == Send(Live(m, u).ws, CallFrame(id, action, params))
  {
    if !IsConnected(m, u, stateOf) then Refused
    else
      var ref := m.table[u];
      var conn := m.heap[ref];
      var m' := m.(heap := m.heap[ref := conn.(pending := conn.pending[id := Waiting])]);
      Sent(m', Call(u, ref, id, action, timeout), Send(conn.ws, CallFrame(id, action, params)))
  }

  /** What the caller makes of a response frame: a truthy `error` is raised,
      anything else returns `data`, defaulting to an empty dict (so an empty
      error text reads as success). */
  function ResponseOutcome(response: Object): (out: Outcome)
    ensures out.Data? || out.RemoteError?
    ensures out.RemoteError? <==> "error" in response && Truthy(response["error"])
    ensures out.RemoteError? ==> out.error == response["error"]
    ensures out.Data? ==> out.data == (if "data" in response then response["data"] else Obj(map[]))
  {
    if Truthy(Get(response, "error", Null)) then RemoteError(response["error"])
    else Data(Get(response, "data", Obj(map[])))
  }

  /** The second atomic step of `send_request`: the caller resumes because its
      slot is done or because its timer fired (a done slot wins), and the
      `finally` pops its id from the connection it registered with. `None`
      means the caller is still suspended. */
  function EndRequest(m: Manager, c: Call, timerFired: bool): (r: Option<(Manager, Outcome)>)
    requires Valid(m)
    requires c.conn in m.heap && c.id in m.heap[c.conn].pending
    ensures r.None? <==> (m.heap[c.conn].pending[c.id].Waiting? && !timerFired)
    ensures r.Some? ==>
      var (m', out) := r.value; var slot := m.heap[c.conn].pending[c.id];
      && Valid(m')
      && m'.table == m.table && m'.heap.Keys == m.heap.Keys && m'.nextRef == m.nextRef
      && m'.heap[c.conn] == m.heap[c.conn].(pending := m.heap[c.conn].pending - {c.id})
      && (forall d | d in m.heap && d != c.conn :: m'.heap[d] == m.heap[d])
      && (slot.Delivered? ==> out == ResponseOutcome(slot.response))
      && (slot.Cancelled? ==> out == CancelledByDisconnect)
      && (slot.Waiting? ==> out == TimedOut)
  {
    var conn := m.heap[c.conn];
    var slot := conn.pending[c.id];
    if slot.Waiting? && !timerFired then None
    else
      var out := match slot
        case Delivered(resp) => ResponseOutcome(resp)
        case Cancelled => CancelledByDisconnect
        case Waiting => TimedOut;
      Some((m.(heap := m.heap[c.conn := conn.(pending := conn.pending - {c.id})]), out))
  }

  // ----------------------------------------------------------- handle_message

  /** `message.get("type", "response")`. */
  function MessageType(msg: Object): Value {
    Get(msg, "type", Str("response"))
  }

  /** The request id a frame answers: it must be a response whose `id` is a
      truthy string. */
  function ResponseId(msg: Object): Option<RequestId> {
    var id := Get(msg, "id", Null);
    if MessageType(msg) == Str("response") && id.Str? && id.s != "" then Some(id.s) else None
  }

  /** Resolve the slot a response answers, if it is still waiting. */
  function Resolve(p: map<RequestId, Slot>, msg: Object): map<RequestId, Slot> {
    var rid := ResponseId(msg);
    if rid.Some? && rid.value in p && p[rid.value].Waiting? then p[rid.value := Delivered(msg)] else p
  }

  /** `handle_message(u, message)`. */
  function HandleMessage(m: Manager, u: UserId, msg: Object, now: int): (m': Manager)
    requires Valid(m)
    ensures Valid(m')
    ensures u !in m.table ==> m' == m
    ensures m'.table == m.table && m'.heap.Keys == m.heap.Keys && m'.nextRef == m.nextRef
    ensures forall c | c in m.heap && (u !in m.table || c != m.table[u]) :: m'.heap[c] == m.heap[c]
    ensures u in m.table ==>
      var before := Live(m, u); var after := Live(m', u);
      && after.user == before.user && after.ws == before.ws && after.connectedAt == before.connectedAt
      && after.lastHeartbeat == now
      && (MessageType(msg) == Str("status") ==>
            after.ibkrConnected == Get(msg, "ibkr_connected", Bool(false))
            && after.ibkrAccount == Get(msg, "account", Null))
      && (MessageType(msg) != Str("status") ==>
            after.ibkrConnected == before.ibkrConnected && after.ibkrAccount == before.ibkrAccount)
      && after.pending.Keys == before.pending.Keys
      && (forall k | k in before.pending ::
            after.pending[k] == (if ResponseId(msg) == Some(k) && before.pending[k].Waiting?
                                 then Delivered(msg) else before.pending[k]))
  {
    if u !in m.table then m
    else
      var ref := m.table[u];
      var conn := m.heap[ref].(lastHeartbeat := now);
      var ty := MessageType(msg);
      var conn' :=
        if ty == Str("response") then conn.(pending := Resolve(conn.pending, msg))
        else if ty == Str("status") then
          conn.(ibkrConnected := Get(msg, "ibkr_connected", Bool(false)), ibkrAccount := Get(msg, "account", Null))
        else conn;
      m.(heap := m.heap[ref := conn'])
  }

  // ------------------------------------------------------------------- lemmas

  /** After `connect`, the user is connected exactly when the new socket is,
      and the status reports the fresh connection's defaults. */
  lemma ConnectThenStatus(m: Manager, u: UserId, ws: SocketId, now: int, stateOf: SocketId -> TransportState)
    requires Valid(m)
    ensures var m' := Connect(m, u, ws, now).0;
      && (IsConnected(m', u, stateOf) <==> stateOf(ws) == Connected)
      && GetConnectionStatus(m', u, stateOf)
         == Status(stateOf(ws) == Connected, Bool(false), Null, Some(now), Some(now))
  {
  }

  /** After `disconnect`, the user is not connected and its status is the
      absent-user default. */
  lemma DisconnectThenStatus(m: Manager, u: UserId, stateOf: SocketId -> TransportState)
    requires Valid(m)
    ensures !IsConnected(Disconnect(m, u), u, stateOf)
    ensures GetConnectionStatus(Disconnect(m, u), u, stateOf) == Status(false, Bool(false), Null, None, None)
  {
  }

  /** After `connect`, a broadcast to the user goes to the new socket exactly
      when that socket is connected, and one to any other user is as before. */
  lemma ConnectThenBroadcast(m: Manager, u: UserId, ws: SocketId, now: int, message: Object,
                             stateOf: SocketId -> TransportState)
    requires Valid(m)
    ensures var m' := Connect(m, u, ws, now).0;
      && BroadcastToUser(m', u, message, stateOf) == (if stateOf(ws) == Connected then [Send(ws, message)] else [])
      && forall v | v != u :: BroadcastToUser(m', v, message, stateOf) == BroadcastToUser(m, v, message, stateOf)
  {
    ConnectThenStatus(m, u, ws, now, stateOf);
  }

  /** After `disconnect`, a broadcast to the user sends nothing. */
  lemma DisconnectThenBroadcast(m: Manager, u: UserId, message: Object, stateOf: SocketId -> TransportState)
    requires Valid(m)
    ensures BroadcastToUser(Disconnect(m, u), u, message, stateOf) == []
  {
    DisconnectThenStatus(m, u, stateOf);
  }

  /** A frame that names no pending id (missing, empty, unknown, or already
      done) leaves every slot as it was. */
  lemma UnmatchedResponseChangesNoSlot(m: Manager, u: UserId, msg: Object, now: int)
    requires Valid(m) && u in m.table
    requires ResponseId(msg).None? || ResponseId(msg).value !in Live(m, u).pending
             || !Live(m, u).pending[ResponseId(msg).value].Waiting?
    ensures forall c | c in m.heap :: HandleMessage(m, u, msg, now).heap[c].pending == m.heap[c].pending
  {
    var m' := HandleMessage(m, u, msg, now);
    forall c | c in m.heap
      ensures m'.heap[c].pending == m.heap[c].pending
    {
      if c == m.table[u] {
        assert m'.heap[c].pending.Keys == m.heap[c].pending.Keys;
      }
    }
  }

  /** Two responses for different ids may arrive in either order: the slots
      end up the same. */
  lemma ResponsesCommute(m: Manager, u: UserId, a: Object, b: Object, t1: int, t2: int)
    requires Valid(m)
    requires ResponseId(a) != ResponseId(b) || ResponseId(a).None?
    ensures var ab := HandleMessage(HandleMessage(m, u, a, t1), u, b, t2);
            var ba := HandleMessage(HandleMessage(m, u, b, t1), u, a, t2);
            ab.table == ba.table && ab.heap.Keys == ba.heap.Keys
            && forall c | c in ab.heap :: ab.heap[c].pending == ba.heap[c].pending
  {
    if u in m.table {
      var p := Live(m, u).pending;
      var ma, mb := HandleMessage(m, u, a, t1), HandleMessage(m, u, b, t1);
      HandleMessageResolves(m, u, a, t1);
      HandleMessageResolves(m, u, b, t1);
      HandleMessageResolves(ma, u, b, t2);
      HandleMessageResolves(mb, u, a, t2);
      ResolveCommutes(p, a, b);
    }
  }

  /** On the user's tracked connection, a frame's effect on the slots is
      `Resolve`, whatever its type. */
  lemma HandleMessageResolves(m: Manager, u: UserId, msg: Object, now: int)
    requires Valid(m) && u in m.table
    ensures Live(HandleMessage(m, u, msg, now), u).pending == Resolve(Live(m, u).pending, msg)
  {
  }

  /** Resolving two different ids in either order fills the same slots. */
  lemma ResolveCommutes(p: map<RequestId, Slot>, a: Object, b: Object)
    requires ResponseId(a) != ResponseId(b) || ResponseId(a).None?
    ensures Resolve(Resolve(p, a), b) == Resolve(Resolve(p, b), a)
  {
  }
}
