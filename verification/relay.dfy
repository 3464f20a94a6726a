/** The relay tunnel as a whole: the manager together with the callers of
    `send_request` that are currently suspended, and the steps that
    interleave under the manager's event loop. The invariant `Inv` states
    the bookkeeping the source relies on: every suspended caller owns exactly
    one pending slot, every pending slot has a suspended owner, and a slot
    can only hold the response that carries its own id. */
module Relay {
  import opened Base
  import opened Json
  import opened Registry

  datatype System = System(mgr: Manager, calls: map<RequestId, Call>)

  ghost predicate Inv(s: System) {
    Valid(s.mgr) && Tracked(s) && Owned(s) && Labelled(s.mgr)
  }

  /** Every suspended caller has its slot on its connection. */
  ghost predicate Tracked(s: System) {
    forall id | id in s.calls ::
      s.calls[id].id == id && s.calls[id].conn in s.mgr.heap && id in s.mgr.heap[s.calls[id].conn].pending
  }

  /** Every slot belongs to a suspended caller on the same connection. */
  ghost predicate Owned(s: System) {
    forall r, id | r in s.mgr.heap && id in s.mgr.heap[r].pending ::
      id in s.calls && s.calls[id].conn == r
  }

  /** A slot only ever holds the response that carries its own id. */
  ghost predicate Labelled(m: Manager) {
    forall r, id | r in m.heap && id in m.heap[r].pending && m.heap[r].pending[id].Delivered? ::
      ResponseId(m.heap[r].pending[id].response) == Some(id)
  }

  function Start(): (s: System)
    ensures Inv(s) && s.calls == map[]
  {
    System(Init(), map[])
  }

  /** `id` is pending in no connection at all. */
  ghost predicate NowherePending(m: Manager, id: RequestId) {
    forall r | r in m.heap :: id !in m.heap[r].pending
  }

  // -------------------------------------------------------------------- steps

  function DoConnect(s: System, u: UserId, ws: SocketId, now: int): (s': System)
    requires Inv(s)
    ensures Inv(s')
    ensures s'.calls == s.calls
  {
    System(Connect(s.mgr, u, ws, now).0, s.calls)
  }

  function DoDisconnect(s: System, u: UserId): (s': System)
    requires Inv(s)
    ensures Inv(s')
    ensures s'.calls == s.calls
  {
    DisconnectKeepsInv(s, u);
    System(Disconnect(s.mgr, u), s.calls)
  }

  /** Disconnecting keeps every slot id where it was and only turns waiting
      slots into cancelled ones. */
  lemma DisconnectKeepsInv(s: System, u: UserId)
    requires Inv(s)
    ensures Inv(System(Disconnect(s.mgr, u), s.calls))
  {
    DisconnectIsSlotStep(s.mgr, u);
    SlotStepKeepsInv(s, Disconnect(s.mgr, u));
  }

  lemma DisconnectIsSlotStep(m: Manager, u: UserId)
    requires Valid(m)
    ensures SlotStep(m, Disconnect(m, u))
  {
  }

  /** A step that keeps every connection and every slot id, and fills a slot
      only with a frame carrying its id. */
  ghost predicate SlotStep(m: Manager, m': Manager) {
    && Valid(m')
    && m'.heap.Keys == m.heap.Keys
    && (forall r | r in m.heap :: m'.heap[r].pending.Keys == m.heap[r].pending.Keys)
    && (forall r, k | r in m.heap && k in m.heap[r].pending && m'.heap[r].pending[k].Delivered? ::
          m'.heap[r].pending[k] == m.heap[r].pending[k]
          || ResponseId(m'.heap[r].pending[k].response) == Some(k))
  }

  lemma SlotStepKeepsInv(s: System, m': Manager)
    requires Inv(s) && SlotStep(s.mgr, m')
    ensures Inv(System(m', s.calls))
  {
  }

  /** `send_request` up to its first await. Refusal leaves the system exactly
      as it was: no slot inserted, no frame sent. */
  function DoBegin(s: System, u: UserId, action: string, params: Option<Object>, id: RequestId,
                   timeout: real, stateOf: SocketId -> TransportState): (r: (System, Option<Effect>, Option<Outcome>))
    requires Inv(s) && id !in s.calls
    ensures Inv(r.0)
    ensures !IsConnected(s.mgr, u, stateOf) ==> r == (s, None, Some(NotConnected))
    ensures IsConnected(s.mgr, u, stateOf) ==>
      && r.0.calls == s.calls[id := Call(u, s.mgr.table[u], id, action, timeout)]
      && r.1 == Some(Send(Live(s.mgr, u).ws, CallFrame(id, action, params)))
      && r.2 == None
  {
    var b := BeginRequest(s.mgr, u, action, params, id, timeout, stateOf);
    if b.Refused? then (s, None, Some(NotConnected))
    else
      BeginKeepsInv(s, u, action, params, id, timeout, stateOf);
      (System(b.mgr, s.calls[id := b.call]), Some(b.effect), None)
  }

  /** Registering a fresh caller keeps the tunnel invariant: the new id is
      pending only on the user's connection, and was pending nowhere before. */
  lemma BeginKeepsInv(s: System, u: UserId, action: string, params: Option<Object>, id: RequestId,
                      timeout: real, stateOf: SocketId -> TransportState)
    requires Inv(s) && id !in s.calls && IsConnected(s.mgr, u, stateOf)
    ensures var b := BeginRequest(s.mgr, u, action, params, id, timeout, stateOf);
      b.Sent? && Inv(System(b.mgr, s.calls[id := b.call]))
  {
    var b := BeginRequest(s.mgr, u, action, params, id, timeout, stateOf);
    var ref := s.mgr.table[u];
    var s' := System(b.mgr, s.calls[id := b.call]);
    assert forall r | r in s.mgr.heap && r != ref :: s'.mgr.heap[r] == s.mgr.heap[r];
    assert s'.mgr.heap[ref].pending == s.mgr.heap[ref].pending[id := Waiting];
    forall k | k in s'.calls
      ensures s'.calls[k].id == k && s'.calls[k].conn in s'.mgr.heap && k in s'.mgr.heap[s'.calls[k].conn].pending
    {
    }
    forall r, k | r in s'.mgr.heap && k in s'.mgr.heap[r].pending
      ensures k in s'.calls && s'.calls[k].conn == r
    {
      if !(r == ref && k == id) {
        assert k in s.mgr.heap[r].pending;
      }
    }
    forall r, k | r in s'.mgr.heap && k in s'.mgr.heap[r].pending && s'.mgr.heap[r].pending[k].Delivered?
      ensures ResponseId(s'.mgr.heap[r].pending[k].response) == Some(k)
    {
      assert !(r == ref && k == id);
      assert s'.mgr.heap[r].pending[k] == s.mgr.heap[r].pending[k];
    }
  }

  /** The suspended caller `id` resumes (slot done, or its timer fired).
      `None` means it is still suspended. */
  function DoEnd(s: System, id: RequestId, timerFired: bool): (r: Option<(System, Outcome)>)
    requires Inv(s) && id in s.calls
    ensures r.Some? ==> Inv(r.value.0) && r.value.0.calls == s.calls - {id}
    ensures r.Some? ==> NowherePending(r.value.0.mgr, id)
  {
    var e := EndRequest(s.mgr, s.calls[id], timerFired);
    if e.None? then None
    else
      EndKeepsInv(s, id, timerFired);
      Some((System(e.value.0, s.calls - {id}), e.value.1))
  }

  /** A resumed caller leaves the tunnel consistent: its id goes from both
      the callers and its connection, and every other slot is untouched. */
  lemma EndKeepsInv(s: System, id: RequestId, timerFired: bool)
    requires Inv(s) && id in s.calls
    requires EndRequest(s.mgr, s.calls[id], timerFired).Some?
    ensures var s' := System(EndRequest(s.mgr, s.calls[id], timerFired).value.0, s.calls - {id});
      Inv(s') && NowherePending(s'.mgr, id)
  {
    EndRemovesOnlyItsSlot(s.mgr, s.calls[id], timerFired);
    DropKeepsInv(s, id, EndRequest(s.mgr, s.calls[id], timerFired).value.0);
  }

  /** Removing one caller together with its slot, and nothing else, keeps
      the tunnel invariant. */
  lemma DropKeepsInv(s: System, id: RequestId, m': Manager)
    requires Inv(s) && id in s.calls && Valid(m') && Drops(s, id, m')
    ensures Inv(System(m', s.calls - {id})) && NowherePending(m', id)
  {
    DropKeepsCallers(s, id, m');
    DropKeepsOwners(s, id, m');
    DropLeavesNowherePending(s, id, m');
    DropKeepsLabels(s, id, m');
  }

  /** `m'` is `s.mgr` with the slot of caller `id` removed and nothing else
      changed. */
  ghost predicate Drops(s: System, id: RequestId, m': Manager)
    requires id in s.calls
  {
    && m'.heap.Keys == s.mgr.heap.Keys
    && (forall r, k | r in m'.heap && k in m'.heap[r].pending ::
          k in s.mgr.heap[r].pending && m'.heap[r].pending[k] == s.mgr.heap[r].pending[k])
    && (forall r, k | r in s.mgr.heap && k in s.mgr.heap[r].pending && (r != s.calls[id].conn || k != id) ::
          k in m'.heap[r].pending)
    && s.calls[id].conn in m'.heap
    && id !in m'.heap[s.calls[id].conn].pending
  }

  lemma DropKeepsCallers(s: System, id: RequestId, m': Manager)
    requires Tracked(s) && id in s.calls && Drops(s, id, m')
    ensures Tracked(System(m', s.calls - {id}))
  {
    var calls := s.calls - {id};
    forall k | k in calls
      ensures calls[k].id == k && calls[k].conn in m'.heap && k in m'.heap[calls[k].conn].pending
    {
      assert calls[k] == s.calls[k];
      assert k in s.mgr.heap[s.calls[k].conn].pending;
    }
  }

  lemma DropKeepsOwners(s: System, id: RequestId, m': Manager)
    requires Owned(s) && id in s.calls && Drops(s, id, m')
    ensures Owned(System(m', s.calls - {id}))
  {
    var calls := s.calls - {id};
    forall r, k | r in m'.heap && k in m'.heap[r].pending
      ensures k in calls && calls[k].conn == r
    {
      assert k in s.mgr.heap[r].pending;
      assert k != id;
      assert calls[k] == s.calls[k];
    }
  }

  lemma DropLeavesNowherePending(s: System, id: RequestId, m': Manager)
    requires Owned(s) && id in s.calls && Drops(s, id, m')
    ensures NowherePending(m', id)
  {
    forall r | r in m'.heap
      ensures id !in m'.heap[r].pending
    {
      assert id in s.mgr.heap[r].pending ==> s.calls[id].conn == r;
    }
  }

  lemma DropKeepsLabels(s: System, id: RequestId, m': Manager)
    requires Labelled(s.mgr) && id in s.calls && Drops(s, id, m')
    ensures Labelled(m')
  {
    forall r, k | r in m'.heap && k in m'.heap[r].pending && m'.heap[r].pending[k].Delivered?
      ensures ResponseId(m'.heap[r].pending[k].response) == Some(k)
    {
      assert m'.heap[r].pending[k] == s.mgr.heap[r].pending[k];
    }
  }

  /** A caller whose slot holds a response resumes with that response's
      outcome, timer or not. */
  lemma EndOfDelivered(s: System, id: RequestId, msg: Object, timerFired: bool)
    requires Inv(s) && id in s.calls
    requires s.mgr.heap[s.calls[id].conn].pending[id] == Delivered(msg)
    ensures DoEnd(s, id, timerFired).Some? && DoEnd(s, id, timerFired).value.1 == ResponseOutcome(msg)
  {
  }

  /** Ending one call leaves every other caller and its slot as they were. */
  lemma EndKeepsOtherCall(s: System, id: RequestId, timerFired: bool, other: RequestId)
    requires Inv(s) && id in s.calls && other in s.calls && other != id
    requires DoEnd(s, id, timerFired).Some?
    ensures var s' := DoEnd(s, id, timerFired).value.0; var c := s.calls[other];
      && other in s'.calls && s'.calls[other] == c
      && s'.mgr.heap[c.conn].pending[other] == s.mgr.heap[c.conn].pending[other]
  {
    EndRemovesOnlyItsSlot(s.mgr, s.calls[id], timerFired);
  }

  /** Ending a call removes its own slot and changes no other. */
  lemma EndRemovesOnlyItsSlot(m: Manager, c: Call, timerFired: bool)
    requires Valid(m) && c.conn in m.heap && c.id in m.heap[c.conn].pending
    requires EndRequest(m, c, timerFired).Some?
    ensures var m' := EndRequest(m, c, timerFired).value.0;
      && m'.heap.Keys == m.heap.Keys && Valid(m')
      && (forall r, k | r in m'.heap && k in m'.heap[r].pending ::
            k in m.heap[r].pending && m'.heap[r].pending[k] == m.heap[r].pending[k])
      && (forall r, k | r in m.heap && k in m.heap[r].pending && (r != c.conn || k != c.id) ::
            k in m'.heap[r].pending)
      && c.id !in m'.heap[c.conn].pending
  {
  }

  function DoReceive(s: System, u: UserId, msg: Object, now: int): (s': System)
    requires Inv(s)
    ensures Inv(s')
    ensures s'.calls == s.calls
  {
    ReceiveKeepsInv(s, u, msg, now);
    System(HandleMessage(s.mgr, u, msg, now), s.calls)
  }

  /** Receiving a frame keeps every slot id where it was, and a slot it
      changes now holds a frame carrying that slot's id. */
  lemma ReceiveKeepsInv(s: System, u: UserId, msg: Object, now: int)
    requires Inv(s)
    ensures Inv(System(HandleMessage(s.mgr, u, msg, now), s.calls))
  {
    ReceiveIsSlotStep(s.mgr, u, msg, now);
    SlotStepKeepsInv(s, HandleMessage(s.mgr, u, msg, now));
  }

  lemma ReceiveIsSlotStep(m: Manager, u: UserId, msg: Object, now: int)
    requires Valid(m)
    ensures SlotStep(m, HandleMessage(m, u, msg, now))
  {
  }

  datatype Step =
    | ConnectStep(u: UserId, ws: SocketId, now: int)
    | DisconnectStep(u: UserId)
    | BeginStep(u: UserId, action: string, params: Option<Object>, id: RequestId, timeout: real)
    | EndStep(id: RequestId, timerFired: bool)
    | ReceiveStep(u: UserId, msg: Object, now: int)

  /** Is the step possible now? A new request needs a fresh id; a caller can
      only resume if it is suspended and its slot is done or its timer fired. */
  predicate Enabled(s: System, step: Step)
    requires Inv(s)
  {
    match step
    case BeginStep(_, _, _, id, _) => id !in s.calls
    case EndStep(id, fired) => id in s.calls && DoEnd(s, id, fired).Some?
    case _ => true
  }

  function Next(s: System, step: Step, stateOf: SocketId -> TransportState): (s': System)
    requires Inv(s) && Enabled(s, step)
    ensures Inv(s')
  {
    match step
    case ConnectStep(u, ws, now) => DoConnect(s, u, ws, now)
    case DisconnectStep(u) => DoDisconnect(s, u)
    case BeginStep(u, a, p, id, t) => DoBegin(s, u, a, p, id, t, stateOf).0
    case EndStep(id, fired) => DoEnd(s, id, fired).value.0
    case ReceiveStep(u, msg, now) => DoReceive(s, u, msg, now)
  }

  // ------------------------------------------------------------------- lemmas

  /** Every run from the initial system keeps the invariant. */
  lemma {:induction false} RunKeepsInv(steps: seq<Step>, stateOf: SocketId -> TransportState, s: System)
    requires Inv(s)
    ensures RunFrom(s, steps, stateOf).Some? ==> Inv(RunFrom(s, steps, stateOf).value)
    decreases |steps|
  {
    if steps != [] && Enabled(s, steps[0]) {
      RunKeepsInv(steps[1..], stateOf, Next(s, steps[0], stateOf));
    }
  }

  /** Apply steps in order; `None` if some step is not enabled. */
  function RunFrom(s: System, steps: seq<Step>, stateOf: SocketId -> TransportState): Option<System>
    requires Inv(s)
    decreases |steps|
  {
    if steps == [] then Some(s)
    else if !Enabled(s, steps[0]) then None
    else RunFrom(Next(s, steps[0], stateOf), steps[1..], stateOf)
  }

  /** Correlation: a caller that gets data back gets the `data` of a response
      frame carrying its own id, and nothing else. */
  lemma EndDeliversOwnResponse(s: System, id: RequestId, timerFired: bool)
    requires Inv(s) && id in s.calls
    requires DoEnd(s, id, timerFired).Some?
    ensures var out := DoEnd(s, id, timerFired).value.1;
      (out.Data? || out.RemoteError?) ==>
        exists msg :: ResponseId(msg) == Some(id) && out == ResponseOutcome(msg)
  {
    var c := s.calls[id];
    var slot := s.mgr.heap[c.conn].pending[id];
    if slot.Delivered? {
      assert ResponseId(slot.response) == Some(id);
    }
  }

  /** A response frame changes only the slot of the caller whose id it
      carries, and only on the connection currently tracked for the user. */
  lemma ReceiveResolvesOnlyItsCaller(s: System, u: UserId, msg: Object, now: int, id: RequestId)
    requires Inv(s) && id in s.calls
    ensures var s' := DoReceive(s, u, msg, now); var c := s.calls[id];
      s'.mgr.heap[c.conn].pending[id] != s.mgr.heap[c.conn].pending[id] ==>
        && ResponseId(msg) == Some(id)
        && u in s.mgr.table && s.mgr.table[u] == c.conn
        && s.mgr.heap[c.conn].pending[id] == Waiting
        && s'.mgr.heap[c.conn].pending[id] == Delivered(msg)
  {
  }

  /** Cleanup in every outcome: once a caller has resumed, its id is pending
      nowhere, so a late reply for it changes no slot. */
  lemma LateReplyIsDropped(s: System, id: RequestId, timerFired: bool, u: UserId, msg: Object, now: int)
    requires Inv(s) && id in s.calls && DoEnd(s, id, timerFired).Some?
    requires ResponseId(msg) == Some(id)
    ensures var s1 := DoEnd(s, id, timerFired).value.0;
      forall r | r in s1.mgr.heap :: DoReceive(s1, u, msg, now).mgr.heap[r].pending == s1.mgr.heap[r].pending
  {
    var s1 := DoEnd(s, id, timerFired).value.0;
    if u in s1.mgr.table {
      UnmatchedResponseChangesNoSlot(s1.mgr, u, msg, now);
    }
  }

  /** Disconnecting a user makes every caller suspended on its connection
      resume at once (timer or not) with a cancellation, unless its reply had
      already been delivered. */
  lemma DisconnectCancelsCallers(s: System, u: UserId, id: RequestId, timerFired: bool)
    requires Inv(s) && id in s.calls
    requires u in s.mgr.table && s.calls[id].conn == s.mgr.table[u]
    requires s.mgr.heap[s.calls[id].conn].pending[id] == Waiting
    ensures var s1 := DoDisconnect(s, u);
      DoEnd(s1, id, timerFired).Some? && DoEnd(s1, id, timerFired).value.1 == CancelledByDisconnect
  {
  }

  /** A connection no longer tracked for any user is frozen: apart from its
      own callers popping their ids, no step changes its slots. Together with
      `OrphanOnlyTimesOut`, this is what superseding a connection does to its
      callers: they are not cancelled and can only time out. */
  lemma DetachedConnectionFrozen(s: System, step: Step, stateOf: SocketId -> TransportState, r: ConnRef)
    requires Inv(s) && Enabled(s, step)
    requires r in s.mgr.heap && forall v | v in s.mgr.table :: s.mgr.table[v] != r
    requires !step.EndStep?
    ensures r in Next(s, step, stateOf).mgr.heap
    ensures Next(s, step, stateOf).mgr.heap[r].pending == s.mgr.heap[r].pending
  {
  }

  lemma OrphanOnlyTimesOut(s: System, id: RequestId, timerFired: bool)
    requires Inv(s) && id in s.calls
    requires s.mgr.heap[s.calls[id].conn].pending[id] == Waiting
    ensures DoEnd(s, id, timerFired).Some? <==> timerFired
    ensures timerFired ==> DoEnd(s, id, timerFired).value.1 == TimedOut
  {
  }

  /** Connecting a user that already has a connection detaches the old one:
      afterwards no user's entry points at it. */
  lemma ConnectDetachesOld(s: System, u: UserId, ws: SocketId, now: int)
    requires Inv(s) && u in s.mgr.table
    ensures var s1 := DoConnect(s, u, ws, now); var old_ := s.mgr.table[u];
      && old_ in s1.mgr.heap
      && s1.mgr.heap[old_] == s.mgr.heap[old_]
      && forall v | v in s1.mgr.table :: s1.mgr.table[v] != old_
  {
    var s1 := DoConnect(s, u, ws, now);
    var old_ := s.mgr.table[u];
    forall v | v in s1.mgr.table
      ensures s1.mgr.table[v] != old_
    {
      if v != u {
        assert s.mgr.heap[s.mgr.table[v]].user == v;
      }
    }
  }

  /** A request to a user that is not connected fails at once and leaves the
      system unchanged. */
  lemma NotConnectedFailsFast(s: System, u: UserId, action: string, params: Option<Object>, id: RequestId,
                              timeout: real, stateOf: SocketId -> TransportState)
    requires Inv(s) && id !in s.calls && !IsConnected(s.mgr, u, stateOf)
    ensures DoBegin(s, u, action, params, id, timeout, stateOf) == (s, None, Some(NotConnected))
  {
  }
}
