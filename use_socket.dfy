/**
 * The client's WebSocket hook: turning decoded server messages into store
 * actions, and the reconnect back-off. The socket's mutable references
 * (the delay, the mounted flag, the pending timer, the live socket) are the
 * fields of a `Connection`; its event handlers are methods.
 */
module UseSocket {
  import opened Wrappers
  import opened Types
  import opened GraphStore

  /** The reconnect delay right after a connection opens, in milliseconds. */
  const INITIAL_DELAY: nat := 1000

  /** The largest reconnect delay, in milliseconds. */
  const MAX_DELAY: nat := 30000

  function Min(a: nat, b: nat): nat {
    if a <= b then a else b
  }

  /** `Math.min(delay * 2, 30000)`. */
  function NextDelay(d: nat): (r: nat)
    ensures d <= MAX_DELAY ==> r <= MAX_DELAY
    ensures INITIAL_DELAY <= d <= MAX_DELAY ==> d <= r
  {
    Min(d * 2, MAX_DELAY)
  }

  // ----- message dispatch -----

  /** The store action a decoded message asks for, if any: a `node_add` only when its
      type names a kind (status defaulting to active, timestamp the receive time),
      `node_update` as a status patch, `edge_add` and `event_log` as they are;
      `session_start`, `ping` and unknown types ask for nothing. */
  function Dispatch(msg: WsMessage, now: int, birthTime: real): Option<Action> {
    match msg
    case NodeAdd(id, nodeType, labelText, content, toolName, parentAgentId, status) =>
      (match KindFromName(nodeType)
       case None => None
       case Some(kind) =>
         Some(AddNodeAction(NodeSpec(id, kind, labelText, content, toolName, parentAgentId, now,
                                     status.GetOr(Active), None, None), birthTime)))
    case NodeUpdate(id, newStatus) => Some(UpdateNodeAction(id, StatusPatch(newStatus)))
    case EdgeAdd(id, sourceId, targetId, color) => Some(AddEdgeAction(EdgeSpec(id, sourceId, targetId, color), now))
    case EventLog(entry) => Some(AddEventLogAction(entry))
    case SessionStart => None
    case Ping => None
    case Unrecognized(_) => None
  }

  /** The store after receiving `data`; `None` is a frame `JSON.parse` rejected. */
  function Receive(g: Graph, data: Option<WsMessage>, now: int, birthTime: real): Graph {
    match data
    case None => g
    case Some(msg) =>
      match Dispatch(msg, now, birthTime)
      case Some(a) => Perform(g, a)
      case None => g
  }

  /** `handleMessage`: route one decoded message to the store. */
  method HandleMessage(store: Store, msg: WsMessage, now: int, birthTime: real)
    modifies store
    ensures store.State() == Receive(old(store.State()), Some(msg), now, birthTime)
  {
    match msg {
      case NodeAdd(id, nodeType, labelText, content, toolName, parentAgentId, status) =>
        var kind := KindFromName(nodeType);
        if kind.None? {
          return;
        }
        var st := if status.Some? then status.value else Active;
        store.AddNode(NodeSpec(id, kind.value, labelText, content, toolName, parentAgentId, now, st, None, None), birthTime);
      case NodeUpdate(id, newStatus) =>
        store.UpdateNode(id, StatusPatch(newStatus));
      case EdgeAdd(id, sourceId, targetId, color) =>
        store.AddEdge(EdgeSpec(id, sourceId, targetId, color), now);
      case EventLog(entry) =>
        store.AddEventLog(entry);
      case SessionStart =>
      case Ping =>
      case Unrecognized(_) =>
    }
  }

  /** How each message lands in the store. */
  lemma ReceiveRoutes(g: Graph, msg: WsMessage, now: int, birthTime: real)
    ensures msg.NodeAdd? && KindFromName(msg.nodeType).None? ==> Receive(g, Some(msg), now, birthTime) == g
    ensures msg.NodeAdd? && KindFromName(msg.nodeType).Some? ==>
      var h := Receive(g, Some(msg), now, birthTime);
      && h.nodes[..|g.nodes|] == g.nodes && |h.nodes| == |g.nodes| + 1
      && var n := h.nodes[|g.nodes|];
      && n.id == msg.id && KindName(n.kind) == msg.nodeType && n.timestamp == now
      && n.status == (if msg.status.Some? then msg.status.value else Active)
      && n.x == 140.0 * |g.nodes| as real && n.y == 0.0
      && h.edges == g.edges
    ensures msg.NodeUpdate? ==> Receive(g, Some(msg), now, birthTime) == UpdateNodeIn(g, msg.id, StatusPatch(msg.newStatus))
    ensures msg.EdgeAdd? ==> Receive(g, Some(msg), now, birthTime) == AddEdgeTo(g, EdgeSpec(msg.id, msg.sourceId, msg.targetId, msg.color), now)
    ensures msg.EventLog? ==> Receive(g, Some(msg), now, birthTime).eventLog == g.eventLog + [msg.entry]
    ensures msg.SessionStart? || msg.Ping? || msg.Unrecognized? ==> Receive(g, Some(msg), now, birthTime) == g
  {
    if msg.NodeAdd? && KindFromName(msg.nodeType).Some? {
      var spec := NodeSpec(msg.id, KindFromName(msg.nodeType).value, msg.labelText, msg.content, msg.toolName,
                           msg.parentAgentId, now, msg.status.GetOr(Active), None, None);
      AddNodeAppends(g, spec, birthTime);
      AddNodePlacement(g, spec, birthTime);
    }
  }

  /** A frame that does not decode changes nothing. */
  lemma MalformedIgnored(g: Graph, now: int, birthTime: real)
    ensures Receive(g, None, now, birthTime) == g
  {
  }

  /** A `node_update` only ever changes the status of the matching nodes. */
  lemma NodeUpdateSetsStatus(g: Graph, id: string, s: Status, now: int, birthTime: real)
    ensures var h := Receive(g, Some(NodeUpdate(id, s)), now, birthTime);
      && |h.nodes| == |g.nodes|
      && forall i :: 0 <= i < |g.nodes| ==>
           h.nodes[i] == (if g.nodes[i].id == id then g.nodes[i].(status := s) else g.nodes[i])
  {
  }

  /** Receiving never removes anything from the store. */
  lemma ReceiveGrows(g: Graph, data: Option<WsMessage>, now: int, birthTime: real)
    ensures Grows(g, Receive(g, data, now, birthTime))
  {
    if data.Some? && Dispatch(data.value, now, birthTime).Some? {
      PerformGrows(g, Dispatch(data.value, now, birthTime).value);
    }
  }

  /** A message that brings no duplicate node id keeps every count equal to the
      number of edges out of its node, and every edge between existing nodes. */
  lemma ReceiveKeepsConsistent(g: Graph, msg: WsMessage, now: int, birthTime: real)
    requires Consistent(g)
    requires msg.NodeAdd? ==> !HasNode(g.nodes, msg.id)
    ensures Consistent(Receive(g, Some(msg), now, birthTime))
  {
    match Dispatch(msg, now, birthTime)
    case Some(a) => PerformKeepsConsistent(g, a);
    case None =>
  }

  // ----- connection lifecycle and back-off -----

  class Connection {
    /** `reconnectDelay.current`. */
    var reconnectDelay: nat
    /** `isMountedRef.current`. */
    var mounted: bool
    /** The delay of the pending reconnect timer, if one is scheduled. */
    var reconnectTimer: Option<nat>
    /** `wsRef.current !== null`. */
    var hasSocket: bool

    ghost predicate Valid()
      reads this
    {
      && INITIAL_DELAY <= reconnectDelay <= MAX_DELAY
      && (reconnectTimer.Some? ==> mounted)
    }

    /** Mounting: mark mounted and open the first socket. */
    constructor()
      ensures Valid()
      ensures reconnectDelay == INITIAL_DELAY && mounted && reconnectTimer.None? && hasSocket
    {
      reconnectDelay := INITIAL_DELAY;
      mounted := true;
      reconnectTimer := None;
      hasSocket := true;
    }

    /** `onopen`: online, and the delay goes back to its start. */
    method OnOpen(store: Store)
      requires Valid()
      modifies this, store
      ensures Valid()
      ensures store.State() == old(store.State()).(connected := true)
      ensures reconnectDelay == INITIAL_DELAY
      ensures mounted == old(mounted) && reconnectTimer == old(reconnectTimer) && hasSocket == old(hasSocket)
    {
      store.SetConnected(true);
      reconnectDelay := INITIAL_DELAY;
    }

    /** `onclose`: offline; while mounted, schedule a reconnect after the current delay. */
    method OnClose(store: Store)
      requires Valid()
      modifies this, store
      ensures Valid()
      ensures store.State() == old(store.State()).(connected := false)
      ensures !hasSocket && reconnectDelay == old(reconnectDelay) && mounted == old(mounted)
      ensures reconnectTimer == if old(mounted) then Some(old(reconnectDelay)) else old(reconnectTimer)
    {
      store.SetConnected(false);
      hasSocket := false;
      if !mounted {
        return;
      }
      reconnectTimer := Some(reconnectDelay);
    }

    /** The reconnect timer fires: double the delay up to the cap and connect again. */
    method OnReconnectTimer()
      requires Valid() && reconnectTimer.Some?
      modifies this
      ensures Valid()
      ensures reconnectDelay == NextDelay(old(reconnectDelay))
      ensures reconnectTimer.None? && hasSocket && mounted == old(mounted)
    {
      reconnectDelay := Min(reconnectDelay * 2, MAX_DELAY);
      reconnectTimer := None;
      hasSocket := true;
    }

    /** `onmessage`: decode, then route; a frame that does not decode is dropped. */
    method OnMessage(store: Store, data: Option<WsMessage>, now: int, birthTime: real)
      modifies store
      ensures store.State() == Receive(old(store.State()), data, now, birthTime)
    {
      if data.Some? {
        HandleMessage(store, data.value, now, birthTime);
      }
    }

    /** Unmounting: clear the pending timer; the socket is asked to close, and the
        `onclose` that follows schedules nothing. */
    method Unmount()
      requires Valid()
      modifies this
      ensures Valid()
      ensures !mounted && reconnectTimer.None?
      ensures reconnectDelay == old(reconnectDelay) && hasSocket == old(hasSocket)
    {
      mounted := false;
      reconnectTimer := None;
    }
  }

  // ----- the back-off schedule -----

  function Pow2(n: nat): nat {
    if n == 0 then 1 else 2 * Pow2(n - 1)
  }

  /** The delay after `n` reconnect attempts with no successful open in between. */
  function DelayAfter(n: nat): nat {
    if n == 0 then INITIAL_DELAY else NextDelay(DelayAfter(n - 1))
  }

  /** The delay doubles from 1000 and is capped at 30000: after n attempts it is
      min(1000·2ⁿ, 30000). */
  lemma {:induction false} DelayClosedForm(n: nat)
    ensures DelayAfter(n) == Min(INITIAL_DELAY * Pow2(n), MAX_DELAY)
  {
    if n > 0 {
      DelayClosedForm(n - 1);
      assert Pow2(n) == 2 * Pow2(n - 1);
    }
  }

  /** So the delays run 1000, 2000, 4000, 8000, 16000 and stay at 30000 from the fifth attempt on. */
  lemma DelaySchedule(n: nat)
    ensures INITIAL_DELAY <= DelayAfter(n) <= MAX_DELAY
    ensures n >= 5 ==> DelayAfter(n) == MAX_DELAY
    ensures n < 5 ==> DelayAfter(n) == INITIAL_DELAY * Pow2(n)
  {
    DelayClosedForm(n);
    PowMonotone(n);
    if n < 5 {
      PowUpTo(n);
    }
  }

  lemma {:induction false} PowMonotone(n: nat)
    ensures Pow2(n) >= 1
    ensures n >= 5 ==> Pow2(n) >= 32
  {
    if n > 0 {
      PowMonotone(n - 1);
      if n == 5 {
        assert Pow2(5) == 32;
      }
    }
  }

  lemma PowUpTo(n: nat)
    requires n < 5
    ensures Pow2(n) <= 16
  {
    assert Pow2(4) == 16;
  }
}
