/**
 * The client's graph store: the nodes, edges and event log the canvas draws,
 * the selection, the camera and the connection flag. Every action replaces
 * whole arrays, so the store is a class whose `seq` fields the methods
 * reassign; each method is specified by a function on the store's value
 * (`Graph`), and the properties of the store are lemmas about those functions.
 */
module GraphStore {
  import opened Wrappers
  import opened Types

  /** The store's contents as one value (the arrays, selection, camera and flag). */
  datatype Graph = Graph(
    nodes: seq<NeuralNode>,
    edges: seq<NeuralEdge>,
    eventLog: seq<EventLogEntry>,
    selectedNodeId: Option<string>,
    camera: CameraTransform,
    connected: bool)

  /** The store before any action: empty arrays, no selection, identity camera, offline. */
  const INITIAL: Graph := Graph([], [], [], None, CameraTransform(0.0, 0.0, 1.0), false)

  /** Horizontal distance between a node and the nodes it branches into. */
  const BRANCH_DX: real := 140.0

  /** Vertical gap between sibling branches. */
  const BRANCH_DY: real := 60.0

  /** What `addNode` is given: a node without its layout and drawing fields, and an optional position. */
  datatype NodeSpec = NodeSpec(
    id: string,
    kind: NodeKind,
    labelText: string,
    content: string,
    toolName: Option<string>,
    parentAgentId: Option<string>,
    timestamp: int,
    status: Status,
    x: Option<real>,
    y: Option<real>)

  /** What `updateNode` may be given: any of these fields, each present or not. */
  datatype NodePatch = NodePatch(
    labelText: Option<string>,
    content: Option<string>,
    status: Option<Status>,
    x: Option<real>,
    y: Option<real>,
    glowIntensity: Option<real>,
    connectionCount: Option<nat>)

  /** A patch that sets only the status (what a `node_update` message carries). */
  function StatusPatch(s: Status): NodePatch {
    NodePatch(None, None, Some(s), None, None, None, None)
  }

  /** What `addEdge` is given: an edge without its animation fields. */
  datatype EdgeSpec = EdgeSpec(id: string, sourceId: string, targetId: string, color: string)

  /** What `setCamera` may be given. */
  datatype CameraPatch = CameraPatch(x: Option<real>, y: Option<real>, scale: Option<real>)

  // ----- lookups and filters -----

  /** The index of the first node with this id (`Array.prototype.find`). */
  function FindIndex(nodes: seq<NeuralNode>, id: string): (r: Option<nat>)
    ensures r.Some? ==> r.value < |nodes| && nodes[r.value].id == id
    ensures r.Some? ==> forall j :: 0 <= j < r.value ==> nodes[j].id != id
    ensures r.None? <==> forall j :: 0 <= j < |nodes| ==> nodes[j].id != id
  {
    if |nodes| == 0 then None
    else if nodes[0].id == id then Some(0)
    else match FindIndex(nodes[1..], id)
      case Some(k) => Some(k + 1)
      case None => None
  }

  /** Some node carries this id. */
  predicate HasNode(nodes: seq<NeuralNode>, id: string) {
    exists i :: 0 <= i < |nodes| && nodes[i].id == id
  }

  /** `getNodeById`: the first node with this id, if any. */
  function NodeById(nodes: seq<NeuralNode>, id: string): (r: Option<NeuralNode>)
    ensures r.Some? <==> HasNode(nodes, id)
    ensures r.Some? ==> r.value.id == id && r.value in nodes
  {
    match FindIndex(nodes, id)
    case Some(i) => Some(nodes[i])
    case None => None
  }

  /** The edges leaving `sourceId`, in order (the siblings `addEdge` counts). */
  function EdgesFrom(edges: seq<NeuralEdge>, sourceId: string): (r: seq<NeuralEdge>)
    ensures |r| <= |edges|
    ensures forall e :: e in r <==> e in edges && e.sourceId == sourceId
  {
    if |edges| == 0 then []
    else
      var last := edges[|edges| - 1];
      EdgesFrom(edges[..|edges| - 1], sourceId) + (if last.sourceId == sourceId then [last] else [])
  }

  predicate Touches(e: NeuralEdge, nodeId: string) {
    e.sourceId == nodeId || e.targetId == nodeId
  }

  /** `getEdgesByNode`: the edges with this node as source or target, in order. */
  function EdgesByNode(edges: seq<NeuralEdge>, nodeId: string): (r: seq<NeuralEdge>)
    ensures |r| <= |edges|
    ensures forall e :: e in r <==> e in edges && Touches(e, nodeId)
  {
    if |edges| == 0 then []
    else
      var last := edges[|edges| - 1];
      EdgesByNode(edges[..|edges| - 1], nodeId) + (if Touches(last, nodeId) then [last] else [])
  }

  /** `getAgentChildren`: the nodes whose parent agent is `agentId`, in order. */
  function AgentChildren(nodes: seq<NeuralNode>, agentId: string): (r: seq<NeuralNode>)
    ensures |r| <= |nodes|
    ensures forall n :: n in r <==> n in nodes && n.parentAgentId == Some(agentId)
  {
    if |nodes| == 0 then []
    else
      var last := nodes[|nodes| - 1];
      AgentChildren(nodes[..|nodes| - 1], agentId) + (if last.parentAgentId == Some(agentId) then [last] else [])
  }

  /** The filters keep order: filtering a concatenation concatenates the filtered parts. */
  lemma {:induction false} EdgesByNodeKeepsOrder(a: seq<NeuralEdge>, b: seq<NeuralEdge>, id: string)
    ensures EdgesByNode(a + b, id) == EdgesByNode(a, id) + EdgesByNode(b, id)
    decreases |b|
  {
    if |b| == 0 {
      assert a + b == a;
    } else {
      var bs := b[..|b| - 1];
      assert (a + b)[..|a + b| - 1] == a + bs;
      assert (a + b)[|a + b| - 1] == b[|b| - 1];
      EdgesByNodeKeepsOrder(a, bs, id);
    }
  }

  lemma {:induction false} EdgesFromKeepsOrder(a: seq<NeuralEdge>, b: seq<NeuralEdge>, id: string)
    ensures EdgesFrom(a + b, id) == EdgesFrom(a, id) + EdgesFrom(b, id)
    decreases |b|
  {
    if |b| == 0 {
      assert a + b == a;
    } else {
      var bs := b[..|b| - 1];
      assert (a + b)[..|a + b| - 1] == a + bs;
      assert (a + b)[|a + b| - 1] == b[|b| - 1];
      EdgesFromKeepsOrder(a, bs, id);
    }
  }

  lemma {:induction false} AgentChildrenKeepsOrder(a: seq<NeuralNode>, b: seq<NeuralNode>, id: string)
    ensures AgentChildren(a + b, id) == AgentChildren(a, id) + AgentChildren(b, id)
    decreases |b|
  {
    if |b| == 0 {
      assert a + b == a;
    } else {
      var bs := b[..|b| - 1];
      assert (a + b)[..|a + b| - 1] == a + bs;
      assert (a + b)[|a + b| - 1] == b[|b| - 1];
      AgentChildrenKeepsOrder(a, bs, id);
    }
  }

  // ----- node construction and the maps over nodes -----

  /** Where `addNode` puts a node when `count` nodes already exist. */
  function Placement(spec: NodeSpec, count: nat): (real, real) {
    if spec.x.Some? && spec.y.Some? then (spec.x.value, spec.y.value)
    else (count as real * BRANCH_DX, 0.0)
  }

  /** The drawing configuration of a kind (`NODE_CONFIG[kind]`). */
  function Config(k: NodeKind): NodeConfig {
    NodeConfigShape();
    NODE_CONFIG[k]
  }

  /** The node `addNode` builds when `count` nodes already exist. */
  function NewNode(spec: NodeSpec, count: nat, birthTime: real): NeuralNode {
    var (nx, ny) := Placement(spec, count);
    NeuralNode(spec.id, spec.kind, spec.labelText, spec.content, spec.toolName, spec.timestamp,
               nx, ny, 0.0, 0.0, Config(spec.kind).radius, Config(spec.kind).color, 1.0,
               spec.parentAgentId, spec.status, birthTime, 0)
  }

  /** A node with the fields the patch carries overwritten. */
  function Merge(n: NeuralNode, p: NodePatch): NeuralNode {
    n.(labelText := p.labelText.GetOr(n.labelText),
       content := p.content.GetOr(n.content),
       status := p.status.GetOr(n.status),
       x := p.x.GetOr(n.x),
       y := p.y.GetOr(n.y),
       glowIntensity := p.glowIntensity.GetOr(n.glowIntensity),
       connectionCount := p.connectionCount.GetOr(n.connectionCount))
  }

  /** The patch merged into every node with the id; the other nodes are kept as they are. */
  function UpdateWhere(nodes: seq<NeuralNode>, id: string, p: NodePatch): seq<NeuralNode> {
    seq(|nodes|, i requires 0 <= i < |nodes| => if nodes[i].id == id then Merge(nodes[i], p) else nodes[i])
  }

  /** The count bump of `addEdge`'s first update. */
  function BumpCount(nodes: seq<NeuralNode>, sourceId: string): seq<NeuralNode> {
    seq(|nodes|, i requires 0 <= i < |nodes| =>
      if nodes[i].id == sourceId then nodes[i].(connectionCount := nodes[i].connectionCount + 1) else nodes[i])
  }

  /** The reposition of `addEdge`'s second update. */
  function MoveTo(nodes: seq<NeuralNode>, targetId: string, x: real, y: real): seq<NeuralNode> {
    seq(|nodes|, i requires 0 <= i < |nodes| => if nodes[i].id == targetId then nodes[i].(x := x, y := y) else nodes[i])
  }

  /** Where the target of the `total`-th edge out of `source` goes. */
  function BranchPosition(source: NeuralNode, total: int): (real, real) {
    var siblingIndex := total - 1;
    (source.x + BRANCH_DX, source.y + (siblingIndex as real - (total - 1) as real / 2.0) * BRANCH_DY)
  }

  /** The edge `addEdge` stores. */
  function NewEdge(e: EdgeSpec, now: int): NeuralEdge {
    NeuralEdge(e.id, e.sourceId, e.targetId, e.color, 0.0, true, now)
  }

  // ----- the actions, on values -----

  function AddNodeTo(g: Graph, spec: NodeSpec, birthTime: real): Graph {
    g.(nodes := g.nodes + [NewNode(spec, |g.nodes|, birthTime)])
  }

  function UpdateNodeIn(g: Graph, id: string, p: NodePatch): Graph {
    g.(nodes := UpdateWhere(g.nodes, id, p))
  }

  function AddEdgeTo(g: Graph, e: EdgeSpec, now: int): Graph {
    if HasNode(g.nodes, e.sourceId) && HasNode(g.nodes, e.targetId) then
      Connect(g, e, now, NodeById(g.nodes, e.sourceId).value)
    else g
  }

  /** The two updates of a successful `addEdge`, `source` being the source node as read before them. */
  function Connect(g: Graph, e: EdgeSpec, now: int, source: NeuralNode): Graph {
    var edges := g.edges + [NewEdge(e, now)];
    var (tx, ty) := BranchPosition(source, |EdgesFrom(edges, e.sourceId)|);
    g.(edges := edges, nodes := MoveTo(BumpCount(g.nodes, e.sourceId), e.targetId, tx, ty))
  }

  function AddEventLogTo(g: Graph, entry: EventLogEntry): Graph {
    g.(eventLog := g.eventLog + [entry])
  }

  function SetCameraIn(g: Graph, p: CameraPatch): Graph {
    g.(camera := CameraTransform(p.x.GetOr(g.camera.x), p.y.GetOr(g.camera.y), p.scale.GetOr(g.camera.scale)))
  }

  /** One store action, as `useSocket` and the canvas issue them. */
  datatype Action =
    | AddNodeAction(spec: NodeSpec, birthTime: real)
    | UpdateNodeAction(id: string, patch: NodePatch)
    | AddEdgeAction(edge: EdgeSpec, now: int)
    | AddEventLogAction(entry: EventLogEntry)
    | SetSelectedAction(nodeId: Option<string>)
    | SetCameraAction(cameraPatch: CameraPatch)
    | SetConnectedAction(connected: bool)

  function Perform(g: Graph, a: Action): Graph {
    match a
    case AddNodeAction(spec, birthTime) => AddNodeTo(g, spec, birthTime)
    case UpdateNodeAction(id, patch) => UpdateNodeIn(g, id, patch)
    case AddEdgeAction(edge, now) => AddEdgeTo(g, edge, now)
    case AddEventLogAction(entry) => AddEventLogTo(g, entry)
    case SetSelectedAction(nodeId) => g.(selectedNodeId := nodeId)
    case SetCameraAction(p) => SetCameraIn(g, p)
    case SetConnectedAction(c) => g.(connected := c)
  }

  function PerformAll(g: Graph, actions: seq<Action>): Graph
    decreases |actions|
  {
    if |actions| == 0 then g else PerformAll(Perform(g, actions[0]), actions[1..])
  }

  // ----- the store -----

  class Store {
    var nodes: seq<NeuralNode>
    var edges: seq<NeuralEdge>
    var eventLog: seq<EventLogEntry>
    var selectedNodeId: Option<string>
    var camera: CameraTransform
    var connected: bool

    function State(): Graph
      reads this
    {
      Graph(nodes, edges, eventLog, selectedNodeId, camera, connected)
    }

    constructor()
      ensures State() == INITIAL
    {
      nodes := [];
      edges := [];
      eventLog := [];
      selectedNodeId := None;
      camera := CameraTransform(0.0, 0.0, 1.0);
      connected := false;
    }

    /** `addNode`: append the node, laid out left to right unless a position is given. */
    method AddNode(spec: NodeSpec, birthTime: real)
      modifies this
      ensures State() == AddNodeTo(old(State()), spec, birthTime)
    {
      var config := Config(spec.kind);
      var nx: real, ny: real;
      if spec.x.Some? && spec.y.Some? {
        nx, ny := spec.x.value, spec.y.value;
      } else {
        nx, ny := |nodes| as real * BRANCH_DX, 0.0;
      }
      var node := NeuralNode(spec.id, spec.kind, spec.labelText, spec.content, spec.toolName, spec.timestamp,
                             nx, ny, 0.0, 0.0, config.radius, config.color, 1.0,
                             spec.parentAgentId, spec.status, birthTime, 0);
      nodes := nodes + [node];
    }

    /** `updateNode`: merge the patch into every node with this id. */
    method UpdateNode(id: string, p: NodePatch)
      modifies this
      ensures State() == UpdateNodeIn(old(State()), id, p)
    {
      nodes := UpdateWhere(nodes, id, p);
    }

    /** `addEdge`: ignored unless both ends exist; otherwise store the edge, bump the
        source's count, then branch the target off the source's earlier position. */
    method AddEdge(e: EdgeSpec, now: int)
      modifies this
      ensures State() == AddEdgeTo(old(State()), e, now)
    {
      ghost var g := State();
      var sourceNode := NodeById(nodes, e.sourceId);
      var targetNode := NodeById(nodes, e.targetId);
      if sourceNode.None? || targetNode.None? {
        return;
      }
      assert AddEdgeTo(g, e, now) == Connect(g, e, now, sourceNode.value);
      edges := edges + [NewEdge(e, now)];
      nodes := BumpCount(nodes, e.sourceId);
      var siblingEdges := EdgesFrom(edges, e.sourceId);
      var totalSiblings := |siblingEdges|;
      var siblingIndex := totalSiblings - 1;
      var targetX := sourceNode.value.x + BRANCH_DX;
      var targetY := sourceNode.value.y + (siblingIndex as real - (totalSiblings - 1) as real / 2.0) * BRANCH_DY;
      assert (targetX, targetY) == BranchPosition(sourceNode.value, |EdgesFrom(g.edges + [NewEdge(e, now)], e.sourceId)|);
      nodes := MoveTo(nodes, e.targetId, targetX, targetY);
    }

    /** `addEventLog`: append the entry. */
    method AddEventLog(entry: EventLogEntry)
      modifies this
      ensures State() == AddEventLogTo(old(State()), entry)
    {
      eventLog := eventLog + [entry];
    }

    /** `setSelected`. */
    method SetSelected(nodeId: Option<string>)
      modifies this
      ensures State() == old(State()).(selectedNodeId := nodeId)
    {
      selectedNodeId := nodeId;
    }

    /** `setCamera`: merge the given camera fields. */
    method SetCamera(p: CameraPatch)
      modifies this
      ensures State() == SetCameraIn(old(State()), p)
    {
      camera := CameraTransform(p.x.GetOr(camera.x), p.y.GetOr(camera.y), p.scale.GetOr(camera.scale));
    }

    /** `setConnected`. */
    method SetConnected(c: bool)
      modifies this
      ensures State() == old(State()).(connected := c)
    {
      connected := c;
    }

    /** Any action, dispatched to its method. */
    method Do(a: Action)
      modifies this
      ensures State() == Perform(old(State()), a)
    {
      match a
      case AddNodeAction(spec, birthTime) => AddNode(spec, birthTime);
      case UpdateNodeAction(id, patch) => UpdateNode(id, patch);
      case AddEdgeAction(edge, now) => AddEdge(edge, now);
      case AddEventLogAction(entry) => AddEventLog(entry);
      case SetSelectedAction(nodeId) => SetSelected(nodeId);
      case SetCameraAction(p) => SetCamera(p);
      case SetConnectedAction(c) => SetConnected(c);
    }
  }

  // ----- properties -----

  /** `addNode` appends exactly one node, with zero velocity and count, the
      kind's radius and colour, and changes nothing else. */
  lemma AddNodeAppends(g: Graph, spec: NodeSpec, birthTime: real)
    ensures var h := AddNodeTo(g, spec, birthTime);
      && |h.nodes| == |g.nodes| + 1
      && h.nodes[..|g.nodes|] == g.nodes
      && var n := h.nodes[|g.nodes|];
      && n.id == spec.id && n.kind == spec.kind && n.status == spec.status
      && n.labelText == spec.labelText && n.content == spec.content
      && n.vx == 0.0 && n.vy == 0.0 && n.connectionCount == 0
      && spec.kind in NODE_CONFIG && n.radius == NODE_CONFIG[spec.kind].radius && n.color == NODE_CONFIG[spec.kind].color
      && h.edges == g.edges && h.eventLog == g.eventLog
      && h.selectedNodeId == g.selectedNodeId && h.camera == g.camera && h.connected == g.connected
  {
    NodeConfigShape();
    var h := AddNodeTo(g, spec, birthTime);
    assert h.nodes[..|g.nodes|] == g.nodes;
  }

  /** Without both coordinates a new node goes to x = 140 per existing node, y = 0;
      with both it goes where it was asked. */
  lemma AddNodePlacement(g: Graph, spec: NodeSpec, birthTime: real)
    ensures var n := AddNodeTo(g, spec, birthTime).nodes[|g.nodes|];
      if spec.x.Some? && spec.y.Some? then n.x == spec.x.value && n.y == spec.y.value
      else n.x == 140.0 * |g.nodes| as real && n.y == 0.0
  {
  }

  /** `addEdge` with a missing end changes nothing. */
  lemma AddEdgeMissingEnd(g: Graph, e: EdgeSpec, now: int)
    requires !HasNode(g.nodes, e.sourceId) || !HasNode(g.nodes, e.targetId)
    ensures AddEdgeTo(g, e, now) == g
  {
  }

  /** A successful `addEdge` appends one fresh, active edge and adds exactly one to the
      count of each node carrying the source id; no other count, id or field but the
      target's position changes. */
  lemma AddEdgeCounts(g: Graph, e: EdgeSpec, now: int)
    requires HasNode(g.nodes, e.sourceId) && HasNode(g.nodes, e.targetId)
    ensures var h := AddEdgeTo(g, e, now);
      && h.edges == g.edges + [NeuralEdge(e.id, e.sourceId, e.targetId, e.color, 0.0, true, now)]
      && |h.nodes| == |g.nodes|
      && (forall i :: 0 <= i < |g.nodes| ==>
            && h.nodes[i].id == g.nodes[i].id
            && h.nodes[i].connectionCount == g.nodes[i].connectionCount + (if g.nodes[i].id == e.sourceId then 1 else 0)
            && h.nodes[i] == g.nodes[i].(connectionCount := h.nodes[i].connectionCount, x := h.nodes[i].x, y := h.nodes[i].y))
      && h.eventLog == g.eventLog && h.camera == g.camera
  {
    ConnectCounts(g, e, now, NodeById(g.nodes, e.sourceId).value);
  }

  lemma ConnectCounts(g: Graph, e: EdgeSpec, now: int, source: NeuralNode)
    ensures var h := Connect(g, e, now, source);
      && h.edges == g.edges + [NeuralEdge(e.id, e.sourceId, e.targetId, e.color, 0.0, true, now)]
      && |h.nodes| == |g.nodes|
      && (forall i :: 0 <= i < |g.nodes| ==>
            && h.nodes[i].id == g.nodes[i].id
            && h.nodes[i].connectionCount == g.nodes[i].connectionCount + (if g.nodes[i].id == e.sourceId then 1 else 0)
            && h.nodes[i] == g.nodes[i].(connectionCount := h.nodes[i].connectionCount, x := h.nodes[i].x, y := h.nodes[i].y))
      && h.eventLog == g.eventLog && h.camera == g.camera
  {
  }

  /** After a successful `addEdge` every node with the target id sits 140 to the
      right of the source's earlier position and 30·(k−1) below it, k being the
      number of edges now leaving the source; every other node keeps its place. */
  lemma AddEdgeFanOut(g: Graph, e: EdgeSpec, now: int)
    requires HasNode(g.nodes, e.sourceId) && HasNode(g.nodes, e.targetId)
    ensures var h := AddEdgeTo(g, e, now);
      var source := NodeById(g.nodes, e.sourceId).value;
      var k := |EdgesFrom(h.edges, e.sourceId)|;
      && k >= 1
      && forall i :: 0 <= i < |h.nodes| ==>
           if g.nodes[i].id == e.targetId then h.nodes[i].x == source.x + 140.0 && h.nodes[i].y == source.y + 30.0 * (k - 1) as real
           else h.nodes[i].x == g.nodes[i].x && h.nodes[i].y == g.nodes[i].y
  {
    ConnectFanOut(g, e, now, NodeById(g.nodes, e.sourceId).value);
  }

  lemma ConnectFanOut(g: Graph, e: EdgeSpec, now: int, source: NeuralNode)
    ensures var h := Connect(g, e, now, source);
      var k := |EdgesFrom(h.edges, e.sourceId)|;
      && k >= 1
      && |h.nodes| == |g.nodes|
      && forall i :: 0 <= i < |h.nodes| ==>
           if g.nodes[i].id == e.targetId then h.nodes[i].x == source.x + 140.0 && h.nodes[i].y == source.y + 30.0 * (k - 1) as real
           else h.nodes[i].x == g.nodes[i].x && h.nodes[i].y == g.nodes[i].y
  {
    var edges := g.edges + [NewEdge(e, now)];
    assert NewEdge(e, now) in EdgesFrom(edges, e.sourceId);
    var k := |EdgesFrom(edges, e.sourceId)|;
    assert ((k - 1) as real - (k - 1) as real / 2.0) * 60.0 == 30.0 * (k - 1) as real;
  }

  /** `updateNode` merges the patch into the nodes with the id, field by field, and
      keeps every other node, the number of nodes and their order. */
  lemma UpdateNodeMerges(g: Graph, id: string, p: NodePatch)
    ensures var h := UpdateNodeIn(g, id, p);
      && |h.nodes| == |g.nodes|
      && (forall i :: 0 <= i < |g.nodes| && g.nodes[i].id != id ==> h.nodes[i] == g.nodes[i])
      && (forall i :: 0 <= i < |g.nodes| && g.nodes[i].id == id ==>
            var n, m := g.nodes[i], h.nodes[i];
            && m.id == id && m.kind == n.kind && m.timestamp == n.timestamp && m.parentAgentId == n.parentAgentId
            && (if p.status.Some? then m.status == p.status.value else m.status == n.status)
            && (if p.labelText.Some? then m.labelText == p.labelText.value else m.labelText == n.labelText)
            && (if p.content.Some? then m.content == p.content.value else m.content == n.content)
            && (if p.x.Some? then m.x == p.x.value else m.x == n.x)
            && (if p.y.Some? then m.y == p.y.value else m.y == n.y)
            && (if p.connectionCount.Some? then m.connectionCount == p.connectionCount.value
                else m.connectionCount == n.connectionCount))
      && h.edges == g.edges && h.eventLog == g.eventLog
  {
  }

  /** `setCamera` replaces exactly the given camera fields. */
  lemma SetCameraMerges(g: Graph, p: CameraPatch)
    ensures var c := SetCameraIn(g, p).camera;
      && (p.x.None? ==> c.x == g.camera.x) && (p.x.Some? ==> c.x == p.x.value)
      && (p.y.None? ==> c.y == g.camera.y) && (p.y.Some? ==> c.y == p.y.value)
      && (p.scale.None? ==> c.scale == g.camera.scale) && (p.scale.Some? ==> c.scale == p.scale.value)
  {
  }

  /** `h` keeps everything `g` had: nodes (by id and position in the array), edges and log entries. */
  predicate Grows(g: Graph, h: Graph) {
    && |g.nodes| <= |h.nodes|
    && (forall i :: 0 <= i < |g.nodes| ==> h.nodes[i].id == g.nodes[i].id)
    && g.edges <= h.edges
    && g.eventLog <= h.eventLog
  }

  /** No action removes a node, an edge or a log entry. */
  lemma PerformGrows(g: Graph, a: Action)
    ensures Grows(g, Perform(g, a))
  {
    match a
    case AddEdgeAction(e, now) =>
      if HasNode(g.nodes, e.sourceId) && HasNode(g.nodes, e.targetId) {
        AddEdgeCounts(g, e, now);
      } else {
        AddEdgeMissingEnd(g, e, now);
      }
    case _ =>
  }

  /** Nor does any sequence of actions. */
  lemma {:induction false} PerformAllGrows(g: Graph, actions: seq<Action>)
    ensures Grows(g, PerformAll(g, actions))
    decreases |actions|
  {
    if |actions| > 0 {
      var g1 := Perform(g, actions[0]);
      PerformGrows(g, actions[0]);
      PerformAllGrows(g1, actions[1..]);
      var h := PerformAll(g1, actions[1..]);
      assert forall i :: 0 <= i < |g.nodes| ==> h.nodes[i].id == g1.nodes[i].id == g.nodes[i].id;
    }
  }

  // ----- the connection-count invariant -----

  /** Every edge's ends are ids of nodes, and every node's count is the number of
      edges leaving its id. */
  predicate Consistent(g: Graph) {
    && Resolved(g.nodes, g.edges)
    && (forall i :: 0 <= i < |g.nodes| ==> g.nodes[i].connectionCount == |EdgesFrom(g.edges, g.nodes[i].id)|)
  }

  /** An action the invariant survives: a new node's id is new, and a patch leaves the count alone. */
  predicate Admissible(g: Graph, a: Action) {
    match a
    case AddNodeAction(spec, _) => !HasNode(g.nodes, spec.id)
    case UpdateNodeAction(_, patch) => patch.connectionCount.None?
    case _ => true
  }

  /** Ids at each index survive a node map, so `HasNode` does too. */
  lemma SameIdsKeepHasNode(ns: seq<NeuralNode>, ms: seq<NeuralNode>, id: string)
    requires |ns| == |ms| && forall i :: 0 <= i < |ns| ==> ms[i].id == ns[i].id
    ensures HasNode(ns, id) <==> HasNode(ms, id)
  {
    if HasNode(ns, id) {
      var i :| 0 <= i < |ns| && ns[i].id == id;
      assert ms[i].id == id;
    }
    if HasNode(ms, id) {
      var i :| 0 <= i < |ms| && ms[i].id == id;
      assert ns[i].id == id;
    }
  }

  /** From an edge-resolved graph, an id that names no node has no edges out of it. */
  lemma UnknownIdHasNoEdges(g: Graph, id: string)
    requires forall k :: 0 <= k < |g.edges| ==> HasNode(g.nodes, g.edges[k].sourceId)
    requires !HasNode(g.nodes, id)
    ensures EdgesFrom(g.edges, id) == []
  {
    if EdgesFrom(g.edges, id) != [] {
      assert EdgesFrom(g.edges, id)[0] in EdgesFrom(g.edges, id);
    }
  }

  /** Every edge's ends are node ids in `ns`. */
  predicate Resolved(ns: seq<NeuralNode>, edges: seq<NeuralEdge>) {
    forall k :: 0 <= k < |edges| ==> HasNode(ns, edges[k].sourceId) && HasNode(ns, edges[k].targetId)
  }

  /** Appending nodes keeps every id that was there. */
  lemma AppendKeepsResolved(ns: seq<NeuralNode>, n: NeuralNode, edges: seq<NeuralEdge>)
    requires Resolved(ns, edges)
    ensures Resolved(ns + [n], edges)
  {
    forall k | 0 <= k < |edges|
      ensures HasNode(ns + [n], edges[k].sourceId) && HasNode(ns + [n], edges[k].targetId)
    {
      var i :| 0 <= i < |ns| && ns[i].id == edges[k].sourceId;
      var j :| 0 <= j < |ns| && ns[j].id == edges[k].targetId;
      assert (ns + [n])[i] == ns[i] && (ns + [n])[j] == ns[j];
    }
  }

  /** A map over nodes that keeps each index's id keeps the edges resolved. */
  lemma SameIdsKeepResolved(ns: seq<NeuralNode>, ms: seq<NeuralNode>, edges: seq<NeuralEdge>)
    requires |ns| == |ms| && forall i :: 0 <= i < |ns| ==> ms[i].id == ns[i].id
    requires Resolved(ns, edges)
    ensures Resolved(ms, edges)
  {
    forall k | 0 <= k < |edges|
      ensures HasNode(ms, edges[k].sourceId) && HasNode(ms, edges[k].targetId)
    {
      SameIdsKeepHasNode(ns, ms, edges[k].sourceId);
      SameIdsKeepHasNode(ns, ms, edges[k].targetId);
    }
  }

  lemma AddNodeKeepsConsistent(g: Graph, spec: NodeSpec, birthTime: real)
    requires Consistent(g) && !HasNode(g.nodes, spec.id)
    ensures Consistent(AddNodeTo(g, spec, birthTime))
  {
    var n := NewNode(spec, |g.nodes|, birthTime);
    var h := AddNodeTo(g, spec, birthTime);
    assert Resolved(g.nodes, g.edges);
    UnknownIdHasNoEdges(g, spec.id);
    AppendKeepsResolved(g.nodes, n, g.edges);
    forall i | 0 <= i < |h.nodes|
      ensures h.nodes[i].connectionCount == |EdgesFrom(h.edges, h.nodes[i].id)|
    {
      if i < |g.nodes| {
        assert h.nodes[i] == g.nodes[i];
      }
    }
  }

  lemma AddEdgeKeepsConsistent(g: Graph, e: EdgeSpec, now: int)
    requires Consistent(g)
    ensures Consistent(AddEdgeTo(g, e, now))
  {
    if HasNode(g.nodes, e.sourceId) && HasNode(g.nodes, e.targetId) {
      ConnectKeepsConsistent(g, e, now, NodeById(g.nodes, e.sourceId).value);
    }
  }

  lemma ConnectKeepsConsistent(g: Graph, e: EdgeSpec, now: int, source: NeuralNode)
    requires Consistent(g) && HasNode(g.nodes, e.sourceId) && HasNode(g.nodes, e.targetId)
    ensures Consistent(Connect(g, e, now, source))
  {
    ConnectKeepsResolved(g, e, now, source);
    ConnectCountsExact(g, e, now, source);
  }

  lemma ConnectKeepsResolved(g: Graph, e: EdgeSpec, now: int, source: NeuralNode)
    requires Resolved(g.nodes, g.edges) && HasNode(g.nodes, e.sourceId) && HasNode(g.nodes, e.targetId)
    ensures var h := Connect(g, e, now, source); Resolved(h.nodes, h.edges)
  {
    var h := Connect(g, e, now, source);
    ConnectCounts(g, e, now, source);
    SameIdsKeepResolved(g.nodes, h.nodes, g.edges);
    SameIdsKeepHasNode(g.nodes, h.nodes, e.sourceId);
    SameIdsKeepHasNode(g.nodes, h.nodes, e.targetId);
    forall k | 0 <= k < |h.edges|
      ensures HasNode(h.nodes, h.edges[k].sourceId) && HasNode(h.nodes, h.edges[k].targetId)
    {
      if k < |g.edges| {
        assert h.edges[k] == g.edges[k];
      }
    }
  }

  lemma ConnectCountsExact(g: Graph, e: EdgeSpec, now: int, source: NeuralNode)
    requires forall i :: 0 <= i < |g.nodes| ==> g.nodes[i].connectionCount == |EdgesFrom(g.edges, g.nodes[i].id)|
    ensures var h := Connect(g, e, now, source);
      forall i :: 0 <= i < |h.nodes| ==> h.nodes[i].connectionCount == |EdgesFrom(h.edges, h.nodes[i].id)|
  {
    var h := Connect(g, e, now, source);
    ConnectCounts(g, e, now, source);
    assert h.edges[..|h.edges| - 1] == g.edges;
    forall i | 0 <= i < |h.nodes|
      ensures h.nodes[i].connectionCount == |EdgesFrom(h.edges, h.nodes[i].id)|
    {
      var id := g.nodes[i].id;
      assert EdgesFrom(h.edges, id) == EdgesFrom(g.edges, id) + (if e.sourceId == id then [NewEdge(e, now)] else []);
    }
  }

  lemma UpdateNodeKeepsConsistent(g: Graph, id: string, p: NodePatch)
    requires Consistent(g) && p.connectionCount.None?
    ensures Consistent(UpdateNodeIn(g, id, p))
  {
    var h := UpdateNodeIn(g, id, p);
    assert Resolved(g.nodes, g.edges);
    SameIdsKeepResolved(g.nodes, h.nodes, g.edges);
  }

  /** Every admissible action keeps the graph consistent. */
  lemma PerformKeepsConsistent(g: Graph, a: Action)
    requires Consistent(g) && Admissible(g, a)
    ensures Consistent(Perform(g, a))
  {
    match a
    case AddNodeAction(spec, birthTime) => AddNodeKeepsConsistent(g, spec, birthTime);
    case UpdateNodeAction(id, patch) => UpdateNodeKeepsConsistent(g, id, patch);
    case AddEdgeAction(e, now) => AddEdgeKeepsConsistent(g, e, now);
    case _ =>
  }

  /** The empty store is consistent. */
  lemma InitialConsistent()
    ensures Consistent(INITIAL)
  {
  }
}
