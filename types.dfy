/**
 * The client's shared data model: node kinds and statuses, the colour
 * palette, the per-kind drawing configuration, graph nodes and edges, the
 * camera, event-log entries and the WebSocket messages the server sends.
 */
module Types {
  import opened Wrappers

  datatype NodeKind = Prompt | Thought | Action | Agent | Result | Error

  datatype Status = Active | Completed | Pending

  /** Every node kind, in the order the type union lists them. */
  const ALL_KINDS: seq<NodeKind> := [Prompt, Thought, Action, Agent, Result, Error]

  const ALL_STATUSES: seq<Status> := [Active, Completed, Pending]

  /** The name a kind has on the wire and as a key of `COLORS`. */
  function KindName(k: NodeKind): string {
    match k
    case Prompt => "prompt"
    case Thought => "thought"
    case Action => "action"
    case Agent => "agent"
    case Result => "result"
    case Error => "error"
  }

  /** The kind a wire name denotes, if any. */
  function KindFromName(name: string): (r: Option<NodeKind>)
    ensures r.Some? ==> KindName(r.value) == name
  {
    if name == "prompt" then Some(Prompt)
    else if name == "thought" then Some(Thought)
    else if name == "action" then Some(Action)
    else if name == "agent" then Some(Agent)
    else if name == "result" then Some(Result)
    else if name == "error" then Some(Error)
    else None
  }

  /** The six kinds are all listed, once each. */
  lemma ExactlySixKinds()
    ensures |ALL_KINDS| == 6
    ensures forall k: NodeKind :: k in ALL_KINDS
    ensures forall i, j :: 0 <= i < j < |ALL_KINDS| ==> ALL_KINDS[i] != ALL_KINDS[j]
  {
    forall k: NodeKind ensures k in ALL_KINDS {
      match k
      case Prompt => assert ALL_KINDS[0] == k;
      case Thought => assert ALL_KINDS[1] == k;
      case Action => assert ALL_KINDS[2] == k;
      case Agent => assert ALL_KINDS[3] == k;
      case Result => assert ALL_KINDS[4] == k;
      case Error => assert ALL_KINDS[5] == k;
    }
  }

  /** The three statuses are all listed, once each. */
  lemma ExactlyThreeStatuses()
    ensures |ALL_STATUSES| == 3
    ensures forall s: Status :: s in ALL_STATUSES
    ensures forall i, j :: 0 <= i < j < |ALL_STATUSES| ==> ALL_STATUSES[i] != ALL_STATUSES[j]
  {
    forall s: Status ensures s in ALL_STATUSES {
      match s
      case Active => assert ALL_STATUSES[0] == s;
      case Completed => assert ALL_STATUSES[1] == s;
      case Pending => assert ALL_STATUSES[2] == s;
    }
  }

  /** Kind names are distinct and `KindFromName` reads back exactly the names of kinds. */
  lemma KindNameRoundTrip(k: NodeKind, name: string)
    ensures KindFromName(KindName(k)) == Some(k)
    ensures KindFromName(name).None? <==> name !in set j: NodeKind :: KindName(j)
  {
    if KindFromName(name).None? && name in set j: NodeKind :: KindName(j) {
      var j: NodeKind :| KindName(j) == name;
      match j
      case Prompt =>
      case Thought =>
      case Action =>
      case Agent =>
      case Result =>
      case Error =>
    }
  }

  /** `COLORS`: the palette, keyed by name. */
  const COLORS: map<string, string> := map[
    "background" := "#06060f",
    "grid" := "#0d1117",
    "thought" := "#00d4ff",
    "action" := "#00ff88",
    "prompt" := "#bb86fc",
    "agent" := "#ff9800",
    "result" := "#ff4081",
    "error" := "#ff1744",
    "pulse" := "#ffffff",
    "panelBg" := "#0a0a14",
    "border" := "#1a1a2e"
  ]

  datatype NodeConfig = NodeConfig(radius: nat, glowRadius: nat, color: string, ring: bool)

  /** `NODE_CONFIG`: how each kind of node is drawn. */
  const NODE_CONFIG: map<NodeKind, NodeConfig> := map[
    Prompt := NodeConfig(12, 24, COLORS["prompt"], false),
    Thought := NodeConfig(3, 6, COLORS["thought"], false),
    Action := NodeConfig(8, 16, COLORS["action"], false),
    Agent := NodeConfig(22, 40, COLORS["agent"], true),
    Result := NodeConfig(6, 14, COLORS["result"], false),
    Error := NodeConfig(7, 16, COLORS["error"], false)
  ]

  /** The own entry of `NODE_CONFIG` for a name arriving over the wire; names that
      JavaScript would find on `Object.prototype` are not entries here. */
  function ConfigByName(name: string): (r: Option<NodeConfig>)
    ensures r.Some? <==> KindFromName(name).Some?
  {
    match KindFromName(name)
    case Some(k) => Some(NODE_CONFIG[k])
    case None => None
  }

  /** The configuration table is total, only agents get a ring, the glow always
      reaches past the node, and each colour is the palette entry of the kind's name. */
  lemma NodeConfigShape()
    ensures forall k: NodeKind :: k in NODE_CONFIG
    ensures forall k: NodeKind :: NODE_CONFIG[k].ring <==> k == Agent
    ensures forall k: NodeKind :: NODE_CONFIG[k].radius < NODE_CONFIG[k].glowRadius
    ensures forall k: NodeKind :: KindName(k) in COLORS && NODE_CONFIG[k].color == COLORS[KindName(k)]
  {
    forall k: NodeKind ensures k in NODE_CONFIG {
      match k
      case Prompt =>
      case Thought =>
      case Action =>
      case Agent =>
      case Result =>
      case Error =>
    }
  }

  // ----- graph entities -----

  datatype NeuralNode = NeuralNode(
    id: string,
    kind: NodeKind,
    labelText: string,  // `label` (a reserved word in Dafny)
    content: string,
    toolName: Option<string>,
    timestamp: int,
    x: real,
    y: real,
    vx: real,
    vy: real,
    radius: nat,
    color: string,
    glowIntensity: real,
    parentAgentId: Option<string>,
    status: Status,
    birthTime: real,
    connectionCount: nat)

  datatype NeuralEdge = NeuralEdge(
    id: string,
    sourceId: string,
    targetId: string,
    color: string,
    pulsePosition: real,
    active: bool,
    createdAt: int)

  datatype CameraTransform = CameraTransform(x: real, y: real, scale: real)

  datatype EventLogEntry = EventLogEntry(
    id: string,
    nodeId: string,
    nodeType: NodeKind,
    labelText: string,  // `label` (a reserved word in Dafny)
    content: string,
    timestamp: int)

  /**
   * A WebSocket message as the client decodes it. `nodeType` of a node_add
   * is the wire name, which need not name a kind; a type string outside the
   * six known ones is `Unrecognized`.
   */
  datatype WsMessage =
    | NodeAdd(id: string, nodeType: string, labelText: string, content: string,
              toolName: Option<string>, parentAgentId: Option<string>, status: Option<Status>)
    | NodeUpdate(id: string, newStatus: Status)
    | EdgeAdd(id: string, sourceId: string, targetId: string, color: string)
    | EventLog(entry: EventLogEntry)
    | SessionStart
    | Ping
    | Unrecognized(msgType: string)
}
