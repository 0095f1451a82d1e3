/**
 * The per-message loop body the bridge route and the log watcher share:
 * skip a message without a role, read the session's `lastNodeId`, parse,
 * skip a `null` result, and broadcast `node_add` (status active), an
 * `edge_add` from the previous node when there was one, and `event_log`.
 * `IngestRun` folds that body over a batch and is what both loops are
 * proved against; its lemmas say the emitted edges form one chain.
 */
module Ingest {
  import opened Wrappers
  import opened JsValue
  import opened Types
  import opened EventParser
  import opened Server

  /** What a batch has done so far; `threw` once a message raised a TypeError, which ends the batch. */
  datatype Run = Run(
    sessions: map<string, SessionState>,
    messages: seq<WsMessage>,
    processed: nat,
    events: seq<ParsedEvent>,
    threw: bool)

  /**
   * One message of the batch (`None` for a log line `JSON.parse` rejected).
   * `source` is what the event's `source` ends up as.
   */
  function Step(r: Run, item: Option<Json>, ids: Fresh, sessionId: string, source: Source, host: Host): Run {
    match item
    case None => r
    case Some(msg) =>
      if msg == JNull then r.(threw := true)
      else if !TruthyOpt(Get(msg, "role")) then r
      else
        var before := Lookup(r.sessions, sessionId);
        Apply(r, before, SessionMessage(msg, sessionId, before, ids.eventId, ids.now, host), ids, sessionId, source)
  }

  /** Records the result `o` of parsing one message of the session whose record was `before`. */
  function Apply(r: Run, before: SessionState, o: MessageResult, ids: Fresh, sessionId: string, source: Source): Run {
    var sessions := r.sessions[sessionId := o.state];
    match o.outcome
    case Threw => r.(sessions := sessions, threw := true)
    case Dropped => r.(sessions := sessions)
    case Emitted(ev) =>
      var e := ev.(source := source);
      Run(sessions, r.messages + Emission(e, before.lastNodeId, Active, ids), r.processed + 1, r.events + [e], false)
  }

  /** The batch `items`, in order, with `ids(i)` the fresh values drawn for item `i`; it stops at the first throw. */
  function IngestRun(items: seq<Option<Json>>, sessionId: string, sessions0: map<string, SessionState>,
                     ids: nat -> Fresh, source: Source, host: Host): Run
    decreases |items|
  {
    if |items| == 0 then Run(sessions0, [], 0, [], false)
    else
      var r := IngestRun(items[..|items| - 1], sessionId, sessions0, ids, source, host);
      if r.threw then r else Step(r, items[|items| - 1], ids(|items| - 1), sessionId, source, host)
  }

  /** Once an item has thrown, the rest of the batch changes nothing. */
  lemma {:induction false} ThrewSticks(items: seq<Option<Json>>, k: nat, sessionId: string, sessions0: map<string, SessionState>,
                                       ids: nat -> Fresh, source: Source, host: Host)
    requires k <= |items|
    requires IngestRun(items[..k], sessionId, sessions0, ids, source, host).threw
    ensures IngestRun(items, sessionId, sessions0, ids, source, host) == IngestRun(items[..k], sessionId, sessions0, ids, source, host)
  {
    if k < |items| {
      var n := |items| - 1;
      assert items[..n][..k] == items[..k];
      ThrewSticks(items[..n], k, sessionId, sessions0, ids, source, host);
    } else {
      assert items[..k] == items;
    }
  }

  // ----- what a batch broadcasts -----

  /** The number of `node_add` messages. */
  function CountNodeAdds(ms: seq<WsMessage>): nat {
    if |ms| == 0 then 0 else (if ms[0].NodeAdd? then 1 else 0) + CountNodeAdds(ms[1..])
  }

  /** The (source, target) of every `edge_add`, in order. */
  function EdgePairs(ms: seq<WsMessage>): seq<(string, string)> {
    if |ms| == 0 then []
    else (if ms[0].EdgeAdd? then [(ms[0].sourceId, ms[0].targetId)] else []) + EdgePairs(ms[1..])
  }

  lemma {:induction false} BroadcastAppend(a: seq<WsMessage>, b: seq<WsMessage>)
    ensures CountNodeAdds(a + b) == CountNodeAdds(a) + CountNodeAdds(b)
    ensures EdgePairs(a + b) == EdgePairs(a) + EdgePairs(b)
  {
    if |a| > 0 {
      assert (a + b)[1..] == a[1..] + b;
      BroadcastAppend(a[1..], b);
    } else {
      assert a + b == b;
    }
  }

  lemma EmissionBroadcasts(ev: ParsedEvent, prev: Option<string>, status: Status, ids: Fresh)
    ensures CountNodeAdds(Emission(ev, prev, status, ids)) == 1
    ensures EdgePairs(Emission(ev, prev, status, ids)) == if Present(prev) then [(prev.value, ev.id)] else []
  {
    var ms := Emission(ev, prev, status, ids);
    var last := [ms[|ms| - 1]];
    assert CountNodeAdds(last) == 0 && EdgePairs(last) == [] by {
      assert last[1..] == [];
    }
    if Present(prev) {
      var middle := [ms[1]];
      assert middle[1..] == [];
      assert CountNodeAdds(middle) == 0;
      assert EdgePairs(middle) == [(prev.value, ev.id)];
      BroadcastAppend(middle, last);
      assert ms == [ms[0]] + (middle + last);
      assert ms[1..] == middle + last;
    } else {
      assert ms == [ms[0]] + last;
      assert ms[1..] == last;
    }
  }

  /** The ids of the events, in order. */
  function EventIds(events: seq<ParsedEvent>): seq<string> {
    seq(|events|, k requires 0 <= k < |events| => events[k].id)
  }

  /**
   * A linear chain through `ids`: an edge from `prev` (when there is one) to
   * the first id, then one edge from each id to the next.
   */
  function ChainPairs(prev: Option<string>, ids: seq<string>): seq<(string, string)> {
    (if Present(prev) && |ids| > 0 then [(prev.value, ids[0])] else [])
    + seq(if |ids| == 0 then 0 else |ids| - 1, k requires 0 <= k < |ids| - 1 => (ids[k], ids[k + 1]))
  }

  lemma ChainExtend(prev: Option<string>, ids: seq<string>, x: string)
    ensures ChainPairs(prev, ids + [x]) ==
      ChainPairs(prev, ids) + (if |ids| == 0 then (if Present(prev) then [(prev.value, x)] else [])
                               else [(ids[|ids| - 1], x)])
  {
    var ids' := ids + [x];
    if |ids| > 0 {
      var tail := seq(|ids'| - 1, k requires 0 <= k < |ids'| - 1 => (ids'[k], ids'[k + 1]));
      var tail0 := seq(|ids| - 1, k requires 0 <= k < |ids| - 1 => (ids[k], ids[k + 1]));
      assert tail == tail0 + [(ids[|ids| - 1], x)];
    }
  }

  /** Every item of the batch has a non-empty fresh event id drawn for it. */
  predicate FreshIdsPresent(items: seq<Option<Json>>, ids: nat -> Fresh) {
    forall i :: 0 <= i < |items| ==> ids(i).eventId != ""
  }

  /** The facts a batch keeps, relative to the session table it started from. */
  predicate Shaped(r: Run, sessionId: string, sessions0: map<string, SessionState>, source: Source) {
    && r.processed == |r.events| == CountNodeAdds(r.messages)
    && EventsShaped(r.events, sessionId, source)
    && (forall m :: m in r.messages && m.NodeAdd? ==> m.status == Some(Active))
    && SessionsShaped(r.sessions, r.events, sessionId, sessions0)
    && EdgePairs(r.messages) == ChainPairs(Lookup(sessions0, sessionId).lastNodeId, EventIds(r.events))
  }

  predicate EventsShaped(events: seq<ParsedEvent>, sessionId: string, source: Source) {
    forall k :: 0 <= k < |events| ==> events[k].source == source && events[k].sessionId == sessionId && events[k].id != ""
  }

  /** The session's record follows the events; every other session is as it was. */
  predicate SessionsShaped(sessions: map<string, SessionState>, events: seq<ParsedEvent>, sessionId: string,
                           sessions0: map<string, SessionState>) {
    && Lookup(sessions, sessionId).lastNodeId
         == (if |events| == 0 then Lookup(sessions0, sessionId).lastNodeId else Some(events[|events| - 1].id))
    && Lookup(sessions, sessionId).currentAgentId == Lookup(sessions0, sessionId).currentAgentId
    && sessions.Keys - {sessionId} == sessions0.Keys - {sessionId}
    && (forall key :: key in sessions0 && key != sessionId ==> key in sessions && sessions[key] == sessions0[key])
  }

  lemma SessionsUpdate(sessions: map<string, SessionState>, events: seq<ParsedEvent>, sessionId: string,
                       sessions0: map<string, SessionState>, s: SessionState)
    requires SessionsShaped(sessions, events, sessionId, sessions0)
    requires s.currentAgentId == Lookup(sessions, sessionId).currentAgentId
    ensures s.lastNodeId == Lookup(sessions, sessionId).lastNodeId ==>
      SessionsShaped(sessions[sessionId := s], events, sessionId, sessions0)
    ensures forall e: ParsedEvent :: s.lastNodeId == Some(e.id) ==>
      SessionsShaped(sessions[sessionId := s], events + [e], sessionId, sessions0)
  {
    assert sessions[sessionId := s].Keys - {sessionId} == sessions.Keys - {sessionId};
  }

  /** The broadcast part of `Shaped` survives one emitted event. */
  lemma EmitKeepsChain(r: Run, e: ParsedEvent, before: SessionState, ids: Fresh, prev0: Option<string>)
    requires r.processed == |r.events| == CountNodeAdds(r.messages)
    requires EdgePairs(r.messages) == ChainPairs(prev0, EventIds(r.events))
    requires before.lastNodeId == (if |r.events| == 0 then prev0 else Some(r.events[|r.events| - 1].id))
    requires forall k :: 0 <= k < |r.events| ==> r.events[k].id != ""
    ensures var ms := r.messages + Emission(e, before.lastNodeId, Active, ids);
            && r.processed + 1 == |r.events + [e]| == CountNodeAdds(ms)
            && EdgePairs(ms) == ChainPairs(prev0, EventIds(r.events + [e]))
  {
    var em := Emission(e, before.lastNodeId, Active, ids);
    EmissionBroadcasts(e, before.lastNodeId, Active, ids);
    BroadcastAppend(r.messages, em);
    ChainExtend(prev0, EventIds(r.events), e.id);
    assert EventIds(r.events + [e]) == EventIds(r.events) + [e.id];
  }

  lemma ApplyKeepsShape(r: Run, before: SessionState, o: MessageResult, ids: Fresh, sessionId: string,
                        sessions0: map<string, SessionState>, source: Source)
    requires Shaped(r, sessionId, sessions0, source) && before == Lookup(r.sessions, sessionId)
    requires o.state.currentAgentId == before.currentAgentId
    requires !o.outcome.Emitted? ==> o.state == before
    requires o.outcome.Emitted? ==>
      o.state.lastNodeId == Some(ids.eventId) && o.outcome.event.id == ids.eventId && ids.eventId != ""
      && o.outcome.event.sessionId == sessionId
    ensures Shaped(Apply(r, before, o, ids, sessionId, source), sessionId, sessions0, source)
  {
    SessionsUpdate(r.sessions, r.events, sessionId, sessions0, o.state);
    if o.outcome.Emitted? {
      var e := o.outcome.event.(source := source);
      EmitKeepsChain(r, e, before, ids, Lookup(sessions0, sessionId).lastNodeId);
      var em := Emission(e, before.lastNodeId, Active, ids);
      assert forall m :: m in em && m.NodeAdd? ==> m == em[0];
      assert EventsShaped(r.events + [e], sessionId, source);
    }
  }

  lemma StepKeepsShape(r: Run, item: Option<Json>, ids: Fresh, sessionId: string, sessions0: map<string, SessionState>,
                       source: Source, host: Host)
    requires Shaped(r, sessionId, sessions0, source) && ids.eventId != ""
    ensures Shaped(Step(r, item, ids, sessionId, source, host), sessionId, sessions0, source)
  {
    if item.Some? && item.value != JNull && TruthyOpt(Get(item.value, "role")) {
      var msg := item.value;
      var before := Lookup(r.sessions, sessionId);
      SessionMessageState(msg, sessionId, before, ids.eventId, ids.now, host);
      SessionMessageKinds(msg, sessionId, before, ids.eventId, ids.now, host);
      ApplyKeepsShape(r, before, SessionMessage(msg, sessionId, before, ids.eventId, ids.now, host), ids, sessionId, sessions0, source);
    }
  }

  /**
   * What a batch does, whatever its messages: one `node_add` (status
   * active) per event, `processed` counting them, every event in the
   * session with the given source, `lastNodeId` left at the last event, the
   * agent context and the other sessions untouched, and the `edge_add`s
   * forming the chain from the session's previous node through the events.
   */
  lemma {:induction false} RunShape(items: seq<Option<Json>>, sessionId: string, sessions0: map<string, SessionState>,
                                    ids: nat -> Fresh, source: Source, host: Host)
    requires FreshIdsPresent(items, ids)
    ensures Shaped(IngestRun(items, sessionId, sessions0, ids, source, host), sessionId, sessions0, source)
  {
    if |items| > 0 {
      var n := |items| - 1;
      assert FreshIdsPresent(items[..n], ids);
      RunShape(items[..n], sessionId, sessions0, ids, source, host);
      var r := IngestRun(items[..n], sessionId, sessions0, ids, source, host);
      if !r.threw {
        StepKeepsShape(r, items[n], ids(n), sessionId, sessions0, source, host);
      }
    }
  }

  // ----- unfolding the fold for the loops proved against it -----

  lemma PrefixStep(items: seq<Option<Json>>, i: nat, sessionId: string, sessions0: map<string, SessionState>,
                   ids: nat -> Fresh, source: Source, host: Host)
    requires i < |items|
    ensures var r := IngestRun(items[..i], sessionId, sessions0, ids, source, host);
            IngestRun(items[..i + 1], sessionId, sessions0, ids, source, host)
              == if r.threw then r else Step(r, items[i], ids(i), sessionId, source, host)
  {
    assert items[..i + 1][..i] == items[..i];
  }

  lemma StepApplies(r: Run, msg: Json, ids: Fresh, sessionId: string, source: Source, host: Host)
    requires msg != JNull && TruthyOpt(Get(msg, "role"))
    ensures var before := Lookup(r.sessions, sessionId);
            Step(r, Some(msg), ids, sessionId, source, host)
              == Apply(r, before, SessionMessage(msg, sessionId, before, ids.eventId, ids.now, host), ids, sessionId, source)
  {
  }

  /** What recording one parse result does to a batch. */
  lemma ApplyCases(r: Run, before: SessionState, o: MessageResult, ids: Fresh, sessionId: string, source: Source)
    requires !r.threw
    ensures var a := Apply(r, before, o, ids, sessionId, source);
            && a.sessions == r.sessions[sessionId := o.state]
            && (a.threw <==> o.outcome.Threw?)
            && (o.outcome.Emitted? ==>
                  a.messages == r.messages + Emission(o.outcome.event.(source := source), before.lastNodeId, Active, ids)
                  && a.processed == r.processed + 1)
            && (!o.outcome.Emitted? ==> a.messages == r.messages && a.processed == r.processed)
  {
  }

  /** The three broadcasts of one event. */
  method BroadcastEvent(channel: Channel, event: ParsedEvent, previousNodeId: Option<string>, ids: Fresh)
    modifies channel
    ensures channel.sent == old(channel.sent) + Emission(event, previousNodeId, Active, ids)
  {
    channel.Broadcast(NodeAddOf(event, Active));
    if Present(previousNodeId) {
      channel.Broadcast(EdgeAddOf(event, previousNodeId.value, ids));
    }
    channel.Broadcast(EventLogOf(event, ids));
  }

  /**
   * The loop body both ingestion loops run on one item: skip it, or parse
   * it through the tracker and broadcast what it becomes. `r` is the batch
   * so far, whose messages `channel` ends with.
   */
  method IngestItem(tracker: SessionTracker, channel: Channel, item: Option<Json>, ids: Fresh, sessionId: string,
                    source: Source, host: Host, ghost r: Run, ghost base: seq<WsMessage>) returns (threw: bool, emitted: bool)
    requires !r.threw && tracker.sessions == r.sessions && channel.sent == base + r.messages
    modifies tracker, channel
    ensures var r' := Step(r, item, ids, sessionId, source, host);
            && tracker.sessions == r'.sessions && channel.sent == base + r'.messages
            && threw == r'.threw && r'.processed == r.processed + (if emitted then 1 else 0)
  {
    threw, emitted := false, false;
    if item.None? {
      return;
    }
    var msg := item.value;
    if msg == JNull {
      return true, false;
    }
    if !TruthyOpt(Get(msg, "role")) {
      return;
    }
    StepApplies(r, msg, ids, sessionId, source, host);
    threw, emitted := IngestMessage(tracker, channel, msg, ids, sessionId, source, host, r, base);
  }

  /** `IngestItem` on a message with a role: parse it, then broadcast the event if there is one. */
  method IngestMessage(tracker: SessionTracker, channel: Channel, msg: Json, ids: Fresh, sessionId: string,
                       source: Source, host: Host, ghost r: Run, ghost base: seq<WsMessage>) returns (threw: bool, emitted: bool)
    requires !r.threw && tracker.sessions == r.sessions && channel.sent == base + r.messages
    modifies tracker, channel
    ensures var before := Lookup(r.sessions, sessionId);
            var r' := Apply(r, before, SessionMessage(msg, sessionId, before, ids.eventId, ids.now, host), ids, sessionId, source);
            && tracker.sessions == r'.sessions && channel.sent == base + r'.messages
            && threw == r'.threw && r'.processed == r.processed + (if emitted then 1 else 0)
  {
    threw, emitted := false, false;
    var previousNodeId := tracker.LastNodeOf(sessionId);
    ghost var before := Lookup(r.sessions, sessionId);
    ghost var o := SessionMessage(msg, sessionId, before, ids.eventId, ids.now, host);
    var outcome := tracker.ParseSessionMessage(msg, sessionId, ids.eventId, ids.now, host);
    ApplyCases(r, before, o, ids, sessionId, source);
    if outcome.Threw? {
      return true, false;
    }
    if outcome.Emitted? {
      ghost var em := Emission(outcome.event.(source := source), previousNodeId, Active, ids);
      BroadcastEvent(channel, outcome.event.(source := source), previousNodeId, ids);
      assert (base + r.messages) + em == base + (r.messages + em);
      emitted := true;
    }
  }

  /**
   * The loop over a batch: each item in order through `IngestItem`,
   * stopping at the first throw. Returns the count of events broadcast
   * and whether the batch ended in a throw.
   */
  method IngestBatch(tracker: SessionTracker, channel: Channel, items: seq<Option<Json>>, sessionId: string,
                     ids: nat -> Fresh, source: Source, host: Host) returns (processed: nat, threw: bool)
    modifies tracker, channel
    ensures var r := IngestRun(items, sessionId, old(tracker.sessions), ids, source, host);
            && tracker.sessions == r.sessions && channel.sent == old(channel.sent) + r.messages
            && processed == r.processed && threw == r.threw
  {
    ghost var sessions0 := tracker.sessions;
    ghost var sent0 := channel.sent;
    processed, threw := 0, false;
    var i := 0;
    while i < |items|
      invariant 0 <= i <= |items|
      invariant var r := IngestRun(items[..i], sessionId, sessions0, ids, source, host);
                !r.threw && tracker.sessions == r.sessions && channel.sent == sent0 + r.messages && processed == r.processed
    {
      ghost var r := IngestRun(items[..i], sessionId, sessions0, ids, source, host);
      ghost var next := IngestRun(items[..i + 1], sessionId, sessions0, ids, source, host);
      PrefixStep(items, i, sessionId, sessions0, ids, source, host);
      assert next == Step(r, items[i], ids(i), sessionId, source, host);
      var emitted;
      threw, emitted := IngestItem(tracker, channel, items[i], ids(i), sessionId, source, host, r, sent0);
      assert tracker.sessions == next.sessions && channel.sent == sent0 + next.messages && threw == next.threw;
      if emitted {
        processed := processed + 1;
      }
      if threw {
        ThrewSticks(items, i + 1, sessionId, sessions0, ids, source, host);
        return;
      }
      i := i + 1;
    }
    assert items[..|items|] == items;
  }
}
