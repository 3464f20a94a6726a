/** Both ends of the tunnel together: the frame the registry sends is
    answered by the agent, and the answer is routed back to its caller. */
module Tunnel {
  import opened Base
  import opened Json
  import opened Registry
  import opened Relay
  import Agent

  /** What the caller of `send_request` ends up with when the agent answers
      its call frame. The agent reports every failure as `error: str(e)`,
      but the registry tests that field for truthiness: an exception whose
      message is empty therefore reaches the caller as success with `{}`. */
  function Expected(ib: Option<Agent.Gateway>, action: string, params: Option<Object>): Outcome {
    if ib.None? || !ib.value.connected then RemoteError(Str("IB Gateway not connected"))
    else
      var r := Agent.ExecuteAction(ib.value, Str(action), Obj(ParamsOrEmpty(params)));
      if r.Ok? then Data(r.value)
      else if r.error != "" then RemoteError(Str(r.error))
      else Data(Obj(map[]))
  }

  /** The agent's reply to a call frame names the frame's id and yields the
      expected outcome. */
  lemma AgentReplyToCallFrame(ib: Option<Agent.Gateway>, id: RequestId, action: string, params: Option<Object>)
    requires id != ""
    ensures var reply := Agent.HandleRequest(ib, CallFrame(id, action, params));
      && ResponseId(reply) == Some(id)
      && ResponseOutcome(reply) == Expected(ib, action, params)
  {
    var frame := CallFrame(id, action, params);
    assert Get(frame, "id", Str("unknown")) == Str(id);
    assert Get(frame, "action", Str("")) == Str(action);
    assert Get(frame, "params", Obj(map[])) == Obj(ParamsOrEmpty(params));
    var reply := Agent.HandleRequest(ib, frame);
    assert MessageType(reply) == Str("response");
  }

  /** A response routed to a caller that is still waiting on the tracked
      connection is what that caller resumes with. */
  lemma ReceiveThenEnd(s: System, u: UserId, id: RequestId, msg: Object, now: int, timerFired: bool)
    requires Inv(s) && id in s.calls
    requires u in s.mgr.table && s.calls[id].conn == s.mgr.table[u]
    requires s.mgr.heap[s.calls[id].conn].pending[id] == Waiting
    requires ResponseId(msg) == Some(id)
    ensures var s1 := DoReceive(s, u, msg, now);
      DoEnd(s1, id, timerFired).Some? && DoEnd(s1, id, timerFired).value.1 == ResponseOutcome(msg)
  {
  }

  /** One call end to end: the registry sends the call frame, the agent
      answers it, the registry routes the answer, and the caller resumes
      with the agent's result whether or not its timer has also fired. */
  lemma RoundTrip(s: System, u: UserId, action: string, params: Option<Object>, id: RequestId, timeout: real,
                  stateOf: SocketId -> TransportState, ib: Option<Agent.Gateway>, now: int, timerFired: bool)
    requires Inv(s) && id !in s.calls && id != "" && IsConnected(s.mgr, u, stateOf)
    ensures
      var b := DoBegin(s, u, action, params, id, timeout, stateOf);
      && b.1.Some? && b.1.value.Send?
      && var reply := Agent.HandleRequest(ib, b.1.value.frame);
         var s2 := DoReceive(b.0, u, reply, now);
         && id in s2.calls
         && DoEnd(s2, id, timerFired).Some?
         && DoEnd(s2, id, timerFired).value.1 == Expected(ib, action, params)
         && NowherePending(DoEnd(s2, id, timerFired).value.0.mgr, id)
  {
    var b := DoBegin(s, u, action, params, id, timeout, stateOf);
    var reply := Agent.HandleRequest(ib, b.1.value.frame);
    AgentReplyToCallFrame(ib, id, action, params);
    ReceiveThenEnd(b.0, u, id, reply, now, timerFired);
  }

  /** The status frame the agent sends is what the registry then reports. */
  lemma StatusReachesRegistry(m: Manager, u: UserId, ib: Option<Agent.Gateway>, timestamp: string, now: int,
                              stateOf: SocketId -> TransportState)
    requires Valid(m) && u in m.table
    ensures var frame := Agent.StatusFrame(true, ib, timestamp).value;
      var st := GetConnectionStatus(HandleMessage(m, u, frame, now), u, stateOf);
      && st.ibkrConnected == Bool(ib.Some? && ib.value.connected)
      && st.account == (if ib.Some? && |ib.value.accounts| > 0 then Str(ib.value.accounts[0]) else Null)
      && st.lastHeartbeat == Some(now)
  {
    var frame := Agent.StatusFrame(true, ib, timestamp).value;
    assert MessageType(frame) == Str("status");
  }

  /** Two callers waiting on the tracked connection of `u`. */
  ghost predicate BothWaiting(s: System, u: UserId, id1: RequestId, id2: RequestId) {
    && Inv(s) && u in s.mgr.table && id1 != id2
    && id1 in s.calls && s.calls[id1].conn == s.mgr.table[u] && s.mgr.heap[s.mgr.table[u]].pending[id1] == Waiting
    && id2 in s.calls && s.calls[id2].conn == s.mgr.table[u] && s.mgr.heap[s.mgr.table[u]].pending[id2] == Waiting
  }

  /** Two back-to-back requests leave both callers waiting on the same
      connection. */
  lemma TwoBegins(s: System, u: UserId, stateOf: SocketId -> TransportState,
                  a1: string, p1: Option<Object>, id1: RequestId,
                  a2: string, p2: Option<Object>, id2: RequestId)
    requires Inv(s) && IsConnected(s.mgr, u, stateOf)
    requires id1 !in s.calls && id2 !in s.calls && id1 != id2
    ensures var b1 := DoBegin(s, u, a1, p1, id1, 30.0, stateOf);
      && id2 !in b1.0.calls
      && BothWaiting(DoBegin(b1.0, u, a2, p2, id2, 30.0, stateOf).0, u, id1, id2)
  {
    var b1 := DoBegin(s, u, a1, p1, id1, 30.0, stateOf);
    assert IsConnected(b1.0.mgr, u, stateOf);
    assert b1.0.mgr.heap[s.mgr.table[u]].pending[id1] == Waiting;
  }

  /** Responses arriving in the opposite order of the requests: each caller
      resumes with the response carrying its own id. */
  lemma ResponsesRoutedById(s: System, u: UserId, id1: RequestId, id2: RequestId,
                            m1: Object, m2: Object, now1: int, now2: int, fired1: bool, fired2: bool)
    requires BothWaiting(s, u, id1, id2)
    requires ResponseId(m1) == Some(id1) && ResponseId(m2) == Some(id2)
    ensures
      var s3 := DoReceive(DoReceive(s, u, m2, now1), u, m1, now2);
      && id1 in s3.calls && DoEnd(s3, id1, fired1).Some?
      && DoEnd(s3, id1, fired1).value.1 == ResponseOutcome(m1)
      && var s4 := DoEnd(s3, id1, fired1).value.0;
      && id2 in s4.calls && DoEnd(s4, id2, fired2).Some?
      && DoEnd(s4, id2, fired2).value.1 == ResponseOutcome(m2)
  {
    var ref := s.mgr.table[u];
    var s2 := DoReceive(s, u, m2, now1);
    assert s2.mgr.heap[ref].pending[id1] == Waiting;
    assert s2.mgr.heap[ref].pending[id2] == Delivered(m2);
    var s3 := DoReceive(s2, u, m1, now2);
    assert s3.mgr.heap[ref].pending[id1] == Delivered(m1);
    assert s3.mgr.heap[ref].pending[id2] == Delivered(m2);
    EndOfDelivered(s3, id1, m1, fired1);
    var s4 := DoEnd(s3, id1, fired1).value.0;
    EndKeepsOtherCall(s3, id1, fired1, id2);
    EndOfDelivered(s4, id2, m2, fired2);
  }

  /** Two calls answered by the agent in the opposite order: each caller gets
      the agent's result for its own action. */
  lemma RepliesInEitherOrder(s: System, u: UserId, stateOf: SocketId -> TransportState, ib: Option<Agent.Gateway>,
                             a1: string, p1: Option<Object>, id1: RequestId,
                             a2: string, p2: Option<Object>, id2: RequestId,
                             now1: int, now2: int, fired1: bool, fired2: bool)
    requires Inv(s) && IsConnected(s.mgr, u, stateOf)
    requires id1 !in s.calls && id2 !in s.calls && id1 != id2 && id1 != "" && id2 != ""
    ensures
      var b1 := DoBegin(s, u, a1, p1, id1, 30.0, stateOf);
      && id2 !in b1.0.calls
      && var s2 := DoBegin(b1.0, u, a2, p2, id2, 30.0, stateOf).0;
         var r1 := Agent.HandleRequest(ib, CallFrame(id1, a1, p1));
         var r2 := Agent.HandleRequest(ib, CallFrame(id2, a2, p2));
         var s3 := DoReceive(DoReceive(s2, u, r2, now1), u, r1, now2);
         && id1 in s3.calls && DoEnd(s3, id1, fired1).Some?
         && DoEnd(s3, id1, fired1).value.1 == Expected(ib, a1, p1)
         && var s4 := DoEnd(s3, id1, fired1).value.0;
         && id2 in s4.calls && DoEnd(s4, id2, fired2).Some?
         && DoEnd(s4, id2, fired2).value.1 == Expected(ib, a2, p2)
  {
    TwoBegins(s, u, stateOf, a1, p1, id1, a2, p2, id2);
    var b1 := DoBegin(s, u, a1, p1, id1, 30.0, stateOf);
    var s2 := DoBegin(b1.0, u, a2, p2, id2, 30.0, stateOf).0;
    var r1 := Agent.HandleRequest(ib, CallFrame(id1, a1, p1));
    var r2 := Agent.HandleRequest(ib, CallFrame(id2, a2, p2));
    AgentReplyToCallFrame(ib, id1, a1, p1);
    AgentReplyToCallFrame(ib, id2, a2, p2);
    ResponsesRoutedById(s2, u, id1, id2, r1, r2, now1, now2, fired1, fired2);
  }
}
