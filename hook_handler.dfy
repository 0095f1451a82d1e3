/**
 * The `POST /api/hook/:type` route: auth decision, hook-type and payload
 * validation, the session-id default, the parse, and the fixed order of
 * broadcasts. `HookRoute` is the specification the handler method is
 * proved against.
 */
module HookHandler {
  import opened Wrappers
  import opened JsValue
  import opened Types
  import opened EventParser
  import opened Server

  const VALID_HOOK_TYPES: set<string> := {"PreToolUse", "PostToolUse", "Stop", "SubagentStop"}

  /**
   * A payload whose `session_id` is falsy gets "default" there: the member
   * read afterwards is "default". A JSON array body has no other members
   * the route reads, so it becomes an object holding only that member.
   */
  function WithSessionId(payload: Json): (p: Json)
    ensures p.JObj?
  {
    if payload.JObj? && TruthyOpt(Get(payload, "session_id")) then payload
    else if payload.JObj? then JObj(payload.members + [("session_id", JStr("default"))])
    else JObj([("session_id", JStr("default"))])
  }

  /** The status of the node a hook adds. */
  function StatusFor(hookType: string): Status {
    if hookType == "PostToolUse" || hookType == "Stop" || hookType == "SubagentStop" then Completed else Active
  }

  /** The route on the tracker `sessions`, with `ids` the fresh ids and clock reading of this request. */
  function HookRoute(env: Env, authorization: Option<string>, hookType: string, body: Option<Json>,
                     sessions: map<string, SessionState>, ids: Fresh, host: Host): Outcome
  {
    var auth := Authorize(env, authorization);
    if auth != Authorized then Outcome(AuthFailure(auth), sessions, [])
    else if hookType !in VALID_HOOK_TYPES then Outcome(Response(400, ErrorBody("Invalid hook type: " + hookType)), sessions, [])
    else if !TruthyOpt(body) || !IsObjectType(body) then Outcome(Response(400, ErrorBody("Invalid payload")), sessions, [])
    else
      var payload := WithSessionId(body.value);
      var sessionId := HookSessionId(payload);
      var before := Lookup(sessions, sessionId);
      var o := HookEvent(hookType, payload, before, ids.eventId, ids.now, host);
      var update := if hookType == "PostToolUse" && Present(before.lastNodeId)
                    then [NodeUpdate(before.lastNodeId.value, Completed)] else [];
      Outcome(Response(200, HookAccepted(o.event.id)), sessions[sessionId := o.state],
              Emission(o.event, before.lastNodeId, StatusFor(hookType), ids) + update)
  }

  /** The route handler. */
  method HandleHook(env: Env, authorization: Option<string>, hookType: string, body: Option<Json>,
                    tracker: SessionTracker, channel: Channel, ids: Fresh, host: Host) returns (response: Response)
    modifies tracker, channel
    ensures var o := HookRoute(env, authorization, hookType, body, old(tracker.sessions), ids, host);
            response == o.response && tracker.sessions == o.sessions && channel.sent == old(channel.sent) + o.messages
  {
    var auth := Authorize(env, authorization);
    if auth != Authorized {
      return AuthFailure(auth);
    }
    if hookType !in VALID_HOOK_TYPES {
      return Response(400, ErrorBody("Invalid hook type: " + hookType));
    }
    if !TruthyOpt(body) || !IsObjectType(body) {
      return Response(400, ErrorBody("Invalid payload"));
    }
    var payload := WithSessionId(body.value);
    var sessionId := HookSessionId(payload);
    var previousNodeId := tracker.LastNodeOf(sessionId);

    ghost var sessions0 := tracker.sessions;
    ghost var o := HookEvent(hookType, payload, Lookup(sessions0, sessionId), ids.eventId, ids.now, host);
    AcceptedRoute(env, authorization, hookType, body, sessions0, ids, host);
    var event := tracker.ParseHookEvent(hookType, payload, ids.eventId, ids.now, host);
    assert event == o.event && tracker.sessions == sessions0[sessionId := o.state];
    BroadcastHook(channel, hookType, event, previousNodeId, ids);
    response := Response(200, HookAccepted(event.id));
  }

  /** The broadcasts of an accepted hook, in the order the route sends them. */
  method BroadcastHook(channel: Channel, hookType: string, event: ParsedEvent, previousNodeId: Option<string>, ids: Fresh)
    modifies channel
    ensures channel.sent == old(channel.sent) + Emission(event, previousNodeId, StatusFor(hookType), ids)
              + (if hookType == "PostToolUse" && Present(previousNodeId) then [NodeUpdate(previousNodeId.value, Completed)] else [])
  {
    channel.Broadcast(NodeAddOf(event, StatusFor(hookType)));
    if Present(previousNodeId) {
      channel.Broadcast(EdgeAddOf(event, previousNodeId.value, ids));
    }
    channel.Broadcast(EventLogOf(event, ids));
    if hookType == "PostToolUse" && Present(previousNodeId) {
      channel.Broadcast(NodeUpdate(previousNodeId.value, Completed));
    }
  }

  /** `HookRoute` on an accepted request, spelled out for the handler's proof. */
  lemma AcceptedRoute(env: Env, authorization: Option<string>, hookType: string, body: Option<Json>,
                      sessions: map<string, SessionState>, ids: Fresh, host: Host)
    requires Authorize(env, authorization) == Authorized && hookType in VALID_HOOK_TYPES
    requires TruthyOpt(body) && IsObjectType(body)
    ensures var payload := WithSessionId(body.value);
            var sessionId := HookSessionId(payload);
            var before := Lookup(sessions, sessionId);
            var o := HookEvent(hookType, payload, before, ids.eventId, ids.now, host);
            var update := if hookType == "PostToolUse" && Present(before.lastNodeId)
                          then [NodeUpdate(before.lastNodeId.value, Completed)] else [];
            HookRoute(env, authorization, hookType, body, sessions, ids, host)
              == Outcome(Response(200, HookAccepted(o.event.id)), sessions[sessionId := o.state],
                         Emission(o.event, before.lastNodeId, StatusFor(hookType), ids) + update)
  {
  }

  // ----- properties -----

  /**
   * A request that fails auth, names an unknown hook type or carries no
   * object is answered with its error and neither reads nor changes any
   * session, nor broadcasts.
   */
  lemma HookRejections(env: Env, authorization: Option<string>, hookType: string, body: Option<Json>,
                       sessions: map<string, SessionState>, ids: Fresh, host: Host)
    ensures var o := HookRoute(env, authorization, hookType, body, sessions, ids, host);
            var auth := Authorize(env, authorization);
            && (auth != Authorized ==> o == Outcome(AuthFailure(auth), sessions, []))
            && (auth == Authorized && hookType !in VALID_HOOK_TYPES ==>
                  o == Outcome(Response(400, ErrorBody("Invalid hook type: " + hookType)), sessions, []))
            && (auth == Authorized && hookType in VALID_HOOK_TYPES && (body.None? || (!body.value.JObj? && !body.value.JArr?)) ==>
                  o == Outcome(Response(400, ErrorBody("Invalid payload")), sessions, []))
            && (o.response.status == 200 <==>
                  auth == Authorized && hookType in VALID_HOOK_TYPES && body.Some? && (body.value.JObj? || body.value.JArr?))
  {
  }

  /**
   * What an accepted hook broadcasts, in order: `node_add` with the hook's
   * status, `edge_add` from the session's previous node iff it had one,
   * `event_log`, and for `PostToolUse` with a previous node a `node_update`
   * completing it.
   */
  lemma HookMessageOrder(env: Env, authorization: Option<string>, hookType: string, body: Option<Json>,
                         sessions: map<string, SessionState>, ids: Fresh, host: Host)
    requires HookRoute(env, authorization, hookType, body, sessions, ids, host).response.status == 200
    ensures var o := HookRoute(env, authorization, hookType, body, sessions, ids, host);
            var sessionId := HookSessionId(WithSessionId(body.value));
            var prev := Lookup(sessions, sessionId).lastNodeId;
            var ms := o.messages;
            var hasEdge := Present(prev);
            var hasUpdate := hookType == "PostToolUse" && Present(prev);
            && |ms| == 2 + (if hasEdge then 1 else 0) + (if hasUpdate then 1 else 0)
            && ms[0].NodeAdd? && ms[0].id == ids.eventId && ms[0].status == Some(StatusFor(hookType))
            && (hasEdge ==> ms[1] == EdgeAdd(ids.edgeId, prev.value, ids.eventId, ms[1].color))
            && ms[if hasEdge then 2 else 1].EventLog? && ms[if hasEdge then 2 else 1].entry.nodeId == ids.eventId
            && (hasUpdate ==> ms[|ms| - 1] == NodeUpdate(prev.value, Completed))
            && o.response == Response(200, HookAccepted(ids.eventId))
  {
    HookRejections(env, authorization, hookType, body, sessions, ids, host);
    AcceptedRoute(env, authorization, hookType, body, sessions, ids, host);
    var payload := WithSessionId(body.value);
    var before := Lookup(sessions, HookSessionId(payload));
    HookEventOfShape(hookType, payload, before, ids.eventId, ids.now, host, HookShape(hookType, payload, host));
  }

  /** Completed for the three "after" hooks, active for `PreToolUse`. */
  lemma StatusRule(hookType: string)
    requires hookType in VALID_HOOK_TYPES
    ensures StatusFor(hookType) == Active <==> hookType == "PreToolUse"
    ensures StatusFor(hookType) == Completed <==> hookType != "PreToolUse"
  {
  }

  /** A missing or falsy `session_id` files the event under "default"; a given one is kept. */
  lemma SessionDefault(payload: Json)
    requires payload.JObj? || payload.JArr?
    ensures !TruthyOpt(Get(payload, "session_id")) ==> HookSessionId(WithSessionId(payload)) == "default"
    ensures Present(StringField(payload, "session_id")) ==>
      HookSessionId(WithSessionId(payload)) == StringField(payload, "session_id").value
  {
    if payload.JObj? && !TruthyOpt(Get(payload, "session_id")) {
      var ms := payload.members + [("session_id", JStr("default"))];
      assert ms[|ms| - 1] == ("session_id", JStr("default"));
    }
  }

  /** An accepted hook touches only its own session's record. */
  lemma HookIsolation(env: Env, authorization: Option<string>, hookType: string, body: Option<Json>,
                      sessions: map<string, SessionState>, ids: Fresh, host: Host, other: string)
    requires HookRoute(env, authorization, hookType, body, sessions, ids, host).response.status == 200
    requires other != HookSessionId(WithSessionId(body.value))
    ensures var after := HookRoute(env, authorization, hookType, body, sessions, ids, host).sessions;
            (other in after <==> other in sessions) && (other in sessions ==> after[other] == sessions[other])
  {
  }

  /**
   * Two accepted hooks of one session in a row: the second's edge runs from
   * the first's node to its own, so a session's hooks form a chain.
   */
  lemma HookChain(env: Env, authorization: Option<string>, hookType1: string, body1: Option<Json>,
                  hookType2: string, body2: Option<Json>, sessions: map<string, SessionState>,
                  ids1: Fresh, ids2: Fresh, host: Host)
    requires ids1.eventId != ""
    requires HookRoute(env, authorization, hookType1, body1, sessions, ids1, host).response.status == 200
    requires var mid := HookRoute(env, authorization, hookType1, body1, sessions, ids1, host).sessions;
             HookRoute(env, authorization, hookType2, body2, mid, ids2, host).response.status == 200
    requires HookSessionId(WithSessionId(body1.value)) == HookSessionId(WithSessionId(body2.value))
    ensures var mid := HookRoute(env, authorization, hookType1, body1, sessions, ids1, host).sessions;
            var ms := HookRoute(env, authorization, hookType2, body2, mid, ids2, host).messages;
            |ms| >= 3 && ms[1].EdgeAdd? && ms[1].sourceId == ids1.eventId && ms[1].targetId == ids2.eventId
  {
    var mid := HookRoute(env, authorization, hookType1, body1, sessions, ids1, host).sessions;
    var sessionId := HookSessionId(WithSessionId(body1.value));
    assert Lookup(mid, sessionId).lastNodeId == Some(ids1.eventId);
    HookMessageOrder(env, authorization, hookType2, body2, mid, ids2, host);
  }
}
