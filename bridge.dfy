/**
 * The `POST /api/bridge` route: the hook route's auth decision, payload
 * validation, and the loop over `messages` that ingests each in order with
 * `source` overwritten to bridge, answering with the count processed.
 */
module Bridge {
  import opened Wrappers
  import opened JsValue
  import opened Types
  import opened EventParser
  import opened Server
  import opened Ingest

  const INVALID_BRIDGE := Response(400, ErrorBody("Invalid bridge payload: requires sessionId and messages array"))

  /** A bridge body is usable when it is truthy, its `sessionId` is truthy and its `messages` is an array. */
  predicate ValidBridgeBody(body: Option<Json>) {
    TruthyOpt(body) && TruthyOpt(Get(body.value, "sessionId"))
    && Get(body.value, "messages").Some? && Get(body.value, "messages").value.JArr?
  }

  /** The tracker key a `sessionId` member is used as; a non-string one is keyed by its string rendering. */
  function BridgeSessionId(body: Json): string {
    match Get(body, "sessionId")
    case Some(v) => ToJsString(v)
    case None => ""
  }

  /** Every message of the array, as items of an ingest batch. */
  function Items(messages: seq<Json>): (items: seq<Option<Json>>)
    ensures |items| == |messages| && forall j :: 0 <= j < |messages| ==> items[j] == Some(messages[j])
  {
    seq(|messages|, j requires 0 <= j < |messages| => Some(messages[j]))
  }

  /** The route on the tracker `sessions`, with `ids(i)` the fresh values drawn for message `i`. */
  function BridgeRoute(env: Env, authorization: Option<string>, body: Option<Json>,
                       sessions: map<string, SessionState>, ids: nat -> Fresh, host: Host): Outcome
  {
    var auth := Authorize(env, authorization);
    if auth != Authorized then Outcome(AuthFailure(auth), sessions, [])
    else if !ValidBridgeBody(body) then Outcome(INVALID_BRIDGE, sessions, [])
    else
      var r := IngestRun(Items(Get(body.value, "messages").value.items), BridgeSessionId(body.value), sessions, ids, Bridge, host);
      Outcome(if r.threw then Response(500, ServerError) else Response(200, BridgeAccepted(r.processed)),
              r.sessions, r.messages)
  }

  /** The route handler. */
  method HandleBridge(env: Env, authorization: Option<string>, body: Option<Json>,
                      tracker: SessionTracker, channel: Channel, ids: nat -> Fresh, host: Host) returns (response: Response)
    modifies tracker, channel
    ensures var o := BridgeRoute(env, authorization, body, old(tracker.sessions), ids, host);
            response == o.response && tracker.sessions == o.sessions && channel.sent == old(channel.sent) + o.messages
  {
    var auth := Authorize(env, authorization);
    if auth != Authorized {
      return AuthFailure(auth);
    }
    if !ValidBridgeBody(body) {
      return INVALID_BRIDGE;
    }
    var sessionId := BridgeSessionId(body.value);
    var messages := Get(body.value, "messages").value.items;
    var processed, threw := IngestBatch(tracker, channel, Items(messages), sessionId, ids, Bridge, host);
    if threw {
      return Response(500, ServerError);
    }
    response := Response(200, BridgeAccepted(processed));
  }

  // ----- properties -----

  /** The bridge answers a failed auth exactly as the hook route does, and a malformed body with 400; neither touches anything. */
  lemma BridgeRejections(env: Env, authorization: Option<string>, body: Option<Json>,
                         sessions: map<string, SessionState>, ids: nat -> Fresh, host: Host)
    ensures var o := BridgeRoute(env, authorization, body, sessions, ids, host);
            var auth := Authorize(env, authorization);
            && (auth != Authorized ==> o == Outcome(AuthFailure(auth), sessions, []))
            && (auth == Authorized && !ValidBridgeBody(body) ==> o == Outcome(INVALID_BRIDGE, sessions, []))
            && (o.response.status == 200 ==> auth == Authorized && ValidBridgeBody(body))
  {
  }

  /**
   * An accepted batch: `processed` is the number of `node_add`s sent, all
   * of them active; every event is the bridge's and in the named session;
   * and the `edge_add`s chain the session's previous node through the
   * batch's events in array order.
   */
  lemma BridgeBatch(env: Env, authorization: Option<string>, body: Option<Json>,
                    sessions: map<string, SessionState>, ids: nat -> Fresh, host: Host)
    requires Authorize(env, authorization) == Authorized && ValidBridgeBody(body)
    requires forall i: nat :: ids(i).eventId != ""
    ensures var sessionId := BridgeSessionId(body.value);
            var r := IngestRun(Items(Get(body.value, "messages").value.items), sessionId, sessions, ids, Bridge, host);
            var o := BridgeRoute(env, authorization, body, sessions, ids, host);
            && o.messages == r.messages && o.sessions == r.sessions
            && (o.response.status == 200 ==> o.response.body == BridgeAccepted(CountNodeAdds(o.messages)))
            && (forall k :: 0 <= k < |r.events| ==> r.events[k].source == Bridge)
            && (forall m :: m in o.messages && m.NodeAdd? ==> m.status == Some(Active))
            && EdgePairs(o.messages) == ChainPairs(Lookup(sessions, sessionId).lastNodeId, EventIds(r.events))
  {
    var items := Items(Get(body.value, "messages").value.items);
    RunShape(items, BridgeSessionId(body.value), sessions, ids, Bridge, host);
  }

  /** A message without a role is skipped: the batch without it does the same. */
  lemma RolelessSkipped(r: Run, msg: Json, ids: Fresh, sessionId: string, host: Host)
    requires msg != JNull && !TruthyOpt(Get(msg, "role"))
    ensures Step(r, Some(msg), ids, sessionId, Bridge, host) == r
  {
  }
}
