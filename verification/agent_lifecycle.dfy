/** The relay agent's `run`/`stop` reconnection loop as a transition system.
    Each await of the loop is a phase; the outcome of each await (did the
    IBKR connection succeed, did the server close the socket, did a sleep
    elapse, did a signal call `stop`) is an event. The flags mirror the
    agent's fields: `running`, whether the IB session is connected, whether
    `self.ws` is set, and whether that socket is still open.

    The loop is parameterised by the condition under which
    `asyncio.gather(message_loop, heartbeat_loop)` returns. As written, the
    heartbeat loop only ends once `running` is false (it never breaks,
    because `send_status` swallows send failures), so a server-side close
    does not end the gather while the agent is running. `Intended` is the
    policy under which the gather ends as soon as the message loop does. */
module AgentLifecycle {

  datatype Phase =
    | Idle              // constructed, `run` not yet called
    | ConnectingIbkr    // awaiting connect_ibkr
    | ConnectingServer  // awaiting connect_server
    | SendingStatus     // awaiting the initial send_status
    | Serving           // awaiting the gather of the message and heartbeat loops
    | RetrySleep        // a connect failed: sleeping before `continue`
    | ReconnectSleep    // an iteration ended while running: sleeping before the next
    | Exited            // `run` returned

  datatype Agent = Agent(phase: Phase, running: bool, ib: bool, ws: bool, wsOpen: bool)

  datatype Event =
    | Run                     // `run()` is called
    | IbkrOutcome(ok: bool)   // connect_ibkr returns
    | ServerOutcome(ok: bool) // connect_server returns
    | StatusSent              // the initial send_status returns
    | HeartbeatTick           // one iteration of the heartbeat loop: a status send
    | ServerClosed            // the server closes the socket
    | GatherDone              // the gather returns
    | SleepElapsed            // a reconnect sleep elapses
    | Stop                    // a signal handler runs `stop()`

  /** What the agent does to the outside world on a step. */
  datatype Action = DisconnectIbkr | CloseSocket | SendStatus

  datatype GatherPolicy = AsWritten | Intended

  const Init := Agent(Idle, false, false, false, false)

  /** Whether the gather can return: the message loop has ended (its socket
      is closed) and, as written, the heartbeat loop too, which needs
      `running` to be false. */
  predicate GatherEnds(p: GatherPolicy, a: Agent) {
    !a.wsOpen && (p == Intended || !a.running)
  }

  /** The `while self.running` test at the head of the loop. */
  function LoopHead(a: Agent): (r: Agent)
    ensures r.phase == (if a.running then ConnectingIbkr else Exited)
    ensures r.running == a.running && r.ib == a.ib && r.ws == a.ws && r.wsOpen == a.wsOpen
  {
    a.(phase := if a.running then ConnectingIbkr else Exited)
  }

  /** The `finally` block: disconnect the IB session if it is connected,
      close and drop the socket if one is set. */
  function Teardown(a: Agent): (r: (Agent, seq<Action>))
    ensures !r.0.ib && !r.0.ws && !r.0.wsOpen
    ensures r.0.phase == a.phase && r.0.running == a.running
    ensures DisconnectIbkr in r.1 <==> a.ib
    ensures CloseSocket in r.1 <==> a.ws
    ensures SendStatus !in r.1
  {
    (a.(ib := false, ws := false, wsOpen := false),
     (if a.ib then [DisconnectIbkr] else []) + (if a.ws then [CloseSocket] else []))
  }

  /** `stop()`: clear `running`, disconnect the IB session, close the socket
      (which ends the message loop) without dropping the reference. */
  function DoStop(a: Agent): (r: (Agent, seq<Action>))
    ensures !r.0.running && !r.0.ib && !r.0.wsOpen
    ensures r.0.phase == a.phase && r.0.ws == a.ws
    ensures DisconnectIbkr in r.1 <==> a.ib
    ensures CloseSocket in r.1 <==> a.ws
    ensures SendStatus !in r.1
  {
    (a.(running := false, ib := false, wsOpen := false),
     (if a.ib then [DisconnectIbkr] else []) + (if a.ws then [CloseSocket] else []))
  }

  /** One step of the loop. A pair of phase and event that the source cannot
      produce leaves the agent unchanged and does nothing. */
  function Step(p: GatherPolicy, a: Agent, e: Event): (r: (Agent, seq<Action>))
  {
    if e == Stop then DoStop(a)
    else match (a.phase, e)
      case (Idle, Run) =>
        (LoopHead(a.(running := true)), [])
      case (ConnectingIbkr, IbkrOutcome(ok)) =>
        if ok then (a.(phase := ConnectingServer, ib := true), [])
        else (a.(phase := RetrySleep), [])
      case (ConnectingServer, ServerOutcome(ok)) =>
        if ok then (a.(phase := SendingStatus, ws := true, wsOpen := true), [])
        else (a.(phase := RetrySleep), [])
      case (SendingStatus, StatusSent) =>
        (a.(phase := Serving), [SendStatus])
      case (Serving, HeartbeatTick) =>
        if a.running then (a, [SendStatus]) else (a, [])
      case (Serving, ServerClosed) =>
        (a.(wsOpen := false), [])
      case (Serving, GatherDone) =>
        if !GatherEnds(p, a) then (a, [])
        else
          var t := Teardown(a);
          if a.running then (t.0.(phase := ReconnectSleep), t.1)
          else (LoopHead(t.0), t.1)
      case (RetrySleep, SleepElapsed) =>
        // `continue` inside `try` runs the `finally` block and skips the
        // reconnect sleep after it
        var t := Teardown(a);
        (LoopHead(t.0), t.1)
      case (ReconnectSleep, SleepElapsed) =>
        (LoopHead(a), [])
      case _ =>
        (a, [])
  }

  function RunEvents(p: GatherPolicy, a: Agent, events: seq<Event>): Agent
    decreases |events|
  {
    if events == [] then a else RunEvents(p, Step(p, a, events[0]).0, events[1..])
  }

  /** What holds of the agent's fields in each phase. */
  ghost predicate Inv(a: Agent) {
    && (a.wsOpen ==> a.ws)
    && (a.phase == Idle ==> !a.running && !a.ib && !a.ws)
    && (a.phase in {ConnectingIbkr, ReconnectSleep, Exited} ==> !a.ib && !a.ws)
    && (a.phase == Exited ==> !a.running)
    && (a.phase in {ConnectingServer, RetrySleep} ==> !a.ws)
    && (a.phase in {ConnectingServer, SendingStatus, Serving} ==> a.ib || !a.running)
    && (a.phase in {SendingStatus, Serving} ==> a.ws)
    && (a.phase == SendingStatus ==> a.wsOpen || !a.running)
  }

  lemma InitInv()
    ensures Inv(Init)
  {
  }

  lemma StepKeepsInv(p: GatherPolicy, a: Agent, e: Event)
    requires Inv(a)
    ensures Inv(Step(p, a, e).0)
  {
  }

  lemma {:induction false} RunKeepsInv(p: GatherPolicy, a: Agent, events: seq<Event>)
    requires Inv(a)
    ensures Inv(RunEvents(p, a, events))
    decreases |events|
  {
    if events != [] {
      StepKeepsInv(p, a, events[0]);
      RunKeepsInv(p, Step(p, a, events[0]).0, events[1..]);
    }
  }

  /** The server connection is attempted only right after the IBKR
      connection succeeded in the same iteration. */
  lemma ServerOnlyAfterIbkr(p: GatherPolicy, a: Agent, e: Event)
    requires Step(p, a, e).0.phase == ConnectingServer && a.phase != ConnectingServer
    ensures a.phase == ConnectingIbkr && e == IbkrOutcome(true)
    ensures Step(p, a, e).0.ib
  {
  }

  /** The message and heartbeat loops start only after the initial status
      frame, which the step sends. */
  lemma StatusBeforeLoops(p: GatherPolicy, a: Agent, e: Event)
    requires Step(p, a, e).0.phase == Serving && a.phase != Serving
    ensures a.phase == SendingStatus && e == StatusSent
    ensures Step(p, a, e).1 == [SendStatus]
  {
  }

  /** Every iteration ends in the teardown: whenever the loop leaves the
      gather or a connect failure other than by `stop`, the IB session is
      disconnected if it was connected and the socket is closed and dropped
      if one was set. */
  lemma TeardownEndsEveryIteration(p: GatherPolicy, a: Agent, e: Event)
    requires a.phase in {Serving, RetrySleep} && e != Stop
    requires Step(p, a, e).0.phase != a.phase
    ensures var r := Step(p, a, e);
      && !r.0.ib && !r.0.ws
      && (DisconnectIbkr in r.1 <==> a.ib)
      && (CloseSocket in r.1 <==> a.ws)
  {
  }

  /** Each new iteration starts with both sessions down, and only while
      `running`. */
  lemma IterationStartsClean(p: GatherPolicy, a: Agent, e: Event)
    requires Inv(a)
    requires Step(p, a, e).0.phase == ConnectingIbkr && a.phase != ConnectingIbkr
    ensures var r := Step(p, a, e).0; r.running && !r.ib && !r.ws
  {
  }

  /** Once stopped, the agent stays stopped and starts no new iteration. */
  lemma StopIsFinal(p: GatherPolicy, a: Agent, e: Event)
    requires a.phase != Idle && !a.running
    ensures var r := Step(p, a, e).0;
      && r.phase != Idle && !r.running
      && (r.phase == ConnectingIbkr ==> a.phase == ConnectingIbkr)
  {
  }

  lemma {:induction false} StoppedAgentStartsNoIteration(p: GatherPolicy, a: Agent, events: seq<Event>)
    requires a.phase != Idle && a.phase != ConnectingIbkr && !a.running
    ensures var r := RunEvents(p, a, events); !r.running && r.phase != ConnectingIbkr
    decreases |events|
  {
    if events != [] {
      StopIsFinal(p, a, events[0]);
      StoppedAgentStartsNoIteration(p, Step(p, a, events[0]).0, events[1..]);
    }
  }

  /** `stop` ends the loop: from any non-initial state, after `stop` the
      agent never enters a new iteration, and the loop exits as soon as
      it reaches the head of the loop. */
  lemma StopThenNoNewIteration(p: GatherPolicy, a: Agent, events: seq<Event>)
    requires a.phase != Idle && a.phase != ConnectingIbkr
    ensures var r := RunEvents(p, Step(p, a, Stop).0, events); !r.running && r.phase != ConnectingIbkr
  {
    StoppedAgentStartsNoIteration(p, Step(p, a, Stop).0, events);
  }

  /** `Exited` is terminal. */
  lemma ExitedIsTerminal(p: GatherPolicy, a: Agent, e: Event)
    requires Inv(a) && a.phase == Exited
    ensures Step(p, a, e) == (a, [])
  {
    if e == Stop {
      var r := DoStop(a);
      assert r.0 == a;
      assert |r.1| == 0;
      assert Step(p, a, e) == r;
    }
  }

  // ----------------------------------------------------------------- finding

  /** As written: once the server closes the socket of a running agent, no
      sequence of events short of `stop` moves it out of the gather, so it
      never reconnects. */
  lemma {:induction false} NeverReconnectsAfterServerDrop(a: Agent, events: seq<Event>)
    requires a.phase == Serving && a.running
    requires forall i | 0 <= i < |events| :: events[i] != Stop
    ensures var r := RunEvents(AsWritten, a, events); r.phase == Serving && r.running
    decreases |events|
  {
    if events != [] {
      NeverReconnectsAfterServerDrop(Step(AsWritten, a, events[0]).0, events[1..]);
    }
  }

  /** Intended: after the server closes the socket, the gather returns, the
      sessions are torn down and, after the reconnect sleep, a new iteration
      starts. */
  lemma IntendedReconnectsAfterServerDrop(a: Agent)
    requires Inv(a) && a.phase == Serving && a.running
    ensures var r := RunEvents(Intended, a, [ServerClosed, GatherDone, SleepElapsed]);
      r.phase == ConnectingIbkr && r.running && !r.ib && !r.ws
  {
    var a1 := Step(Intended, a, ServerClosed).0;
    var a2 := Step(Intended, a1, GatherDone).0;
    assert a2.phase == ReconnectSleep;
    var a3 := Step(Intended, a2, SleepElapsed).0;
    assert [ServerClosed, GatherDone, SleepElapsed][1..] == [GatherDone, SleepElapsed];
    assert [GatherDone, SleepElapsed][1..] == [SleepElapsed];
    assert RunEvents(Intended, a, [ServerClosed, GatherDone, SleepElapsed]) == a3;
  }
}
