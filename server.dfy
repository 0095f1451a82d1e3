/**
 * What the three ingestion paths share: the deploy-mode auth decision, the
 * HTTP responses, the broadcast channel, the edge colours and the
 * `node_add`, `edge_add`, `event_log` messages each parsed event becomes.
 */
module Server {
  import opened Wrappers
  import opened Types
  import opened JsValue
  import opened EventParser

  /** `process.env.DEPLOY_MODE` and `process.env.NEURAL_VIZ_API_KEY`. */
  datatype Env = Env(deployMode: Option<string>, apiKey: Option<string>)

  /** `DEPLOY_MODE ?? 'local'`. */
  function DeployMode(env: Env): string {
    env.deployMode.GetOr("local")
  }

  datatype Auth = Authorized | Misconfigured | Unauthorized

  /** The check the hook route and the bridge both make on the `authorization` header. */
  function Authorize(env: Env, authorization: Option<string>): (r: Auth)
    ensures DeployMode(env) == "local" ==> r == Authorized
    ensures DeployMode(env) != "local" && !Present(env.apiKey) ==> r == Misconfigured
    ensures DeployMode(env) != "local" && Present(env.apiKey) ==>
      (r == Authorized <==> authorization == Some("Bearer " + env.apiKey.value))
      && (r != Authorized ==> r == Unauthorized)
  {
    if DeployMode(env) == "local" then Authorized
    else if !Present(env.apiKey) then Misconfigured
    else if !Present(authorization) || authorization.value != "Bearer " + env.apiKey.value then Unauthorized
    else Authorized
  }

  datatype ResponseBody =
    | ErrorBody(error: string)       // `{ error }`
    | HookAccepted(eventId: string)  // `{ ok: true, eventId }`
    | BridgeAccepted(processed: nat) // `{ ok: true, processed }`
    | ServerError                    // Express's own page for an exception thrown by a handler

  datatype Response = Response(status: nat, body: ResponseBody)

  /** What a request leaves behind: its response, the session tracker after it, and what it broadcast. */
  datatype Outcome = Outcome(response: Response, sessions: map<string, SessionState>, messages: seq<WsMessage>)

  /** The response to a failed auth decision. */
  function AuthFailure(a: Auth): (r: Response)
    requires a != Authorized
    ensures a == Misconfigured <==> r.status == 500
    ensures a == Unauthorized <==> r.status == 401
  {
    match a
    case Misconfigured => Response(500, ErrorBody("Server misconfiguration: NEURAL_VIZ_API_KEY not set"))
    case Unauthorized => Response(401, ErrorBody("Unauthorized"))
  }

  /** The server's colour table for node kinds: the colour of an edge into a node of that kind. */
  function NodeColor(k: NodeKind): string {
    match k
    case Prompt => "#bb86fc"
    case Thought => "#00d4ff"
    case Action => "#00ff88"
    case Agent => "#ff9800"
    case Result => "#ff4081"
    case Error => "#ff1744"
  }

  /** The server's edge colours are the client palette's colours for the same kinds. */
  lemma NodeColorMatchesConfig(k: NodeKind)
    ensures k in NODE_CONFIG && NodeColor(k) == NODE_CONFIG[k].color
  {
    NodeConfigShape();
  }

  /** The values `nanoid()` and `Date.now()` return while one event is handled. */
  datatype Fresh = Fresh(eventId: string, edgeId: string, logId: string, now: int)

  /** The WebSocket broadcast: every message sent, in order. */
  class Channel {
    var sent: seq<WsMessage>

    constructor()
      ensures sent == []
    {
      sent := [];
    }

    method Broadcast(m: WsMessage)
      modifies this
      ensures sent == old(sent) + [m]
    {
      sent := sent + [m];
    }
  }

  function NodeAddOf(ev: ParsedEvent, status: Status): WsMessage {
    NodeAdd(ev.id, KindName(ev.nodeType), ev.labelText, ev.content, ev.toolName, ev.parentAgentId, Some(status))
  }

  function EdgeAddOf(ev: ParsedEvent, origin: string, ids: Fresh): WsMessage {
    EdgeAdd(ids.edgeId, origin, ev.id, NodeColor(ev.nodeType))
  }

  function EventLogOf(ev: ParsedEvent, ids: Fresh): WsMessage {
    EventLog(EventLogEntry(ids.logId, ev.id, ev.nodeType, ev.labelText, ev.content, ev.timestamp))
  }

  /**
   * The messages one event becomes, given the session's `lastNodeId` read
   * before parsing: `node_add`, then `edge_add` from that node when there
   * was one, then `event_log`.
   */
  function Emission(ev: ParsedEvent, prev: Option<string>, status: Status, ids: Fresh): (ms: seq<WsMessage>)
    ensures 2 <= |ms| <= 3
    ensures ms[0] == NodeAddOf(ev, status) && ms[|ms| - 1] == EventLogOf(ev, ids)
    ensures |ms| == 3 <==> Present(prev)
    ensures |ms| == 3 ==> ms[1] == EdgeAdd(ids.edgeId, prev.value, ev.id, NodeColor(ev.nodeType))
  {
    [NodeAddOf(ev, status)] + (if Present(prev) then [EdgeAddOf(ev, prev.value, ids)] else []) + [EventLogOf(ev, ids)]
  }
}
