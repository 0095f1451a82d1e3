/**
 * The server's event normaliser: hook payloads and session-log messages
 * become `ParsedEvent`s, and the session tracker (session id to
 * `{lastNodeId, currentAgentId}`) is the only memory kept between events.
 *
 * The id `nanoid()` draws and the clock `Date.now()` reads are parameters;
 * `JSON.stringify(v, null, 2)` and `new Date(v).getTime()` are the host's
 * functions in `Host`.
 */
module EventParser {
  import opened Wrappers
  import opened JsValue
  import opened Types
  import Text

  datatype SessionState = SessionState(lastNodeId: Option<string>, currentAgentId: Option<string>)

  /** The record `getOrCreateSession` inserts for an unseen session. */
  const NEW_SESSION := SessionState(None, None)

  datatype Source = Hook | Watcher | Bridge

  datatype ParsedEvent = ParsedEvent(
    id: string,
    source: Source,
    hookType: Option<string>,
    toolName: Option<string>,
    sessionId: string,
    timestamp: int,
    content: string,
    nodeType: NodeKind,
    labelText: string,  // `label`
    parentAgentId: Option<string>)

  /** The host functions the normaliser calls: `JSON.stringify(v, null, 2)` and `new Date(v).getTime()`. */
  datatype Host = Host(stringify: Json -> string, dateOf: Json -> int)

  const TOOL_ACTIONS: set<string> := {"Bash", "Read", "Write", "Edit", "Grep", "Glob"}

  /** Every event's content is cut at this many characters. */
  const CONTENT_MAX: nat := 2000

  /** The title in an agent node's label is cut at this many characters. */
  const AGENT_TITLE_MAX: nat := 40

  /** `tracker.get(sessionId)`, with a missing entry read as the record `getOrCreateSession` would insert. */
  function Lookup(sessions: map<string, SessionState>, sessionId: string): SessionState {
    if sessionId in sessions then sessions[sessionId] else NEW_SESSION
  }

  // ----- payload formatting -----

  /** A tool input as node content: pretty-printed JSON when it is object-typed, otherwise its string form, an absent input giving "". */
  function RenderInput(input: Option<Json>, host: Host): string {
    if IsObjectType(input) then host.stringify(input.value)
    else ToJsString(Coalesce(input, JStr("")))
  }

  /** The string form of the first of two members of a tool input that is neither null nor absent, else of `d`. */
  function FieldOr(input: Json, key: string, alt: string, d: string): string {
    ToJsString(Coalesce(Get(input, key), Coalesce(Get(input, alt), JStr(d))))
  }

  /** The string form of a member of a tool input, or of `d` when it is null or absent. */
  function FieldOrDefault(input: Json, key: string, d: string): string {
    ToJsString(Coalesce(Get(input, key), JStr(d)))
  }

  /** `formatToolInput`: the content of an action node for one of the known tools. */
  function FormatToolInput(toolName: string, input: Option<Json>, host: Host): string {
    if !TruthyOpt(input) then ""
    else
      var i := input.value;
      if toolName == "Bash" then FieldOrDefault(i, "command", "")
      else if toolName == "Read" then FieldOr(i, "file_path", "path", "")
      else if toolName == "Write" then
        FieldOr(i, "file_path", "path", "") + "\n" + Text.Take(FieldOrDefault(i, "content", ""), 500)
      else if toolName == "Edit" then
        FieldOr(i, "file_path", "path", "")
        + "\n- " + Text.Take(FieldOrDefault(i, "old_string", ""), 200)
        + "\n+ " + Text.Take(FieldOrDefault(i, "new_string", ""), 200)
      else if toolName == "Grep" then
        "/" + FieldOrDefault(i, "pattern", "") + "/ in " + FieldOrDefault(i, "path", ".")
      else if toolName == "Glob" then
        FieldOrDefault(i, "pattern", "*") + " in " + FieldOrDefault(i, "path", ".")
      else host.stringify(i)
  }

  /** A string member of a tool input that may itself be absent. */
  function InputString(input: Option<Json>, key: string): Option<string> {
    if input.Some? then StringField(input.value, key) else None
  }

  /** The title of a spawned agent: the input's non-empty `description`, else its non-empty `prompt`, else "Subagent". */
  function AgentTitle(input: Option<Json>): string {
    var description := InputString(input, "description");
    var prompt := InputString(input, "prompt");
    if Present(description) then description.value
    else if Present(prompt) then prompt.value
    else "Subagent"
  }

  // ----- hook events -----

  /** The tracker key of a hook: its non-empty `session_id`, else "unknown". */
  function HookSessionId(payload: Json): string {
    var s := StringField(payload, "session_id");
    if Present(s) then s.value else "unknown"
  }

  /** What one branch of `parseHookEvent`'s switch decides (content before truncation). */
  datatype Shape = Shape(nodeType: NodeKind, labelText: string, content: string, toolName: Option<string>)

  function HookShape(hookType: string, payload: Json, host: Host): Shape {
    var toolName := StringField(payload, "tool_name");
    var input := Get(payload, "tool_input");
    if hookType == "PreToolUse" then
      if toolName == Some("Task") then
        Shape(Agent, "Agent: " + Text.Truncate(AgentTitle(input), AGENT_TITLE_MAX), RenderInput(input, host), toolName)
      else if toolName.GetOr("") in TOOL_ACTIONS then
        Shape(Action, toolName.GetOr("Tool"), FormatToolInput(toolName.value, input, host), toolName)
      else
        Shape(Action, toolName.GetOr("Unknown Tool"), RenderInput(input, host), toolName)
    else if hookType == "PostToolUse" then
      var error := StringField(payload, "error");
      if Present(error) then Shape(Error, "Error: " + toolName.GetOr("Tool"), error.value, toolName)
      else Shape(Result, "Result: " + toolName.GetOr("Tool"), StringField(payload, "tool_result").GetOr(""), toolName)
    else if hookType == "Stop" then
      var result := StringField(payload, "tool_result");
      var reason := StringField(payload, "stop_reason");
      Shape(Result, "Stop", result.GetOr(reason.GetOr("Session stopped")), None)
    else if hookType == "SubagentStop" then
      Shape(Result, "Agent Complete", StringField(payload, "tool_result").GetOr("Subagent finished"), None)
    else
      Shape(Thought, hookType, host.stringify(payload), None)
  }

  /** The session's agent context after a hook event whose fresh id is `id`. */
  function AgentAfterHook(hookType: string, payload: Json, before: Option<string>, id: string): Option<string> {
    if hookType == "PreToolUse" && StringField(payload, "tool_name") == Some("Task") then Some(id)
    else if hookType == "Stop" || hookType == "SubagentStop" then None
    else before
  }

  datatype HookOutcome = HookOutcome(event: ParsedEvent, state: SessionState)

  /** `parseHookEvent` on the session's record `before`: the event and the record after it. */
  function HookEvent(hookType: string, payload: Json, before: SessionState, id: string, now: int, host: Host): HookOutcome {
    var shape := HookShape(hookType, payload, host);
    var event := ParsedEvent(id, Hook, Some(hookType), shape.toolName, HookSessionId(payload), now,
                             Text.Truncate(shape.content, CONTENT_MAX), shape.nodeType, shape.labelText,
                             before.currentAgentId);
    HookOutcome(event, SessionState(Some(id), AgentAfterHook(hookType, payload, before.currentAgentId, id)))
  }

  /** `HookEvent` in terms of an already computed shape. */
  lemma HookEventOfShape(hookType: string, payload: Json, before: SessionState, id: string, now: int, host: Host, shape: Shape)
    requires shape == HookShape(hookType, payload, host)
    ensures HookEvent(hookType, payload, before, id, now, host)
         == HookOutcome(ParsedEvent(id, Hook, Some(hookType), shape.toolName, HookSessionId(payload), now,
                                    Text.Truncate(shape.content, CONTENT_MAX), shape.nodeType, shape.labelText,
                                    before.currentAgentId),
                        SessionState(Some(id), AgentAfterHook(hookType, payload, before.currentAgentId, id)))
  {
  }

  // ----- session-log messages -----

  /** A content segment whose `type` is "tool_use". */
  predicate IsToolUse(c: Json) {
    Get(c, "type") == Some(JStr("tool_use"))
  }

  datatype Scan = FoundSegment(segment: Json) | NoSegment | ScanThrew

  /**
   * The first tool-use segment of a content array, as `find` returns it.
   * Reading `type` of a `null` element before one is found throws.
   */
  function FindToolUse(items: seq<Json>): Scan {
    if |items| == 0 then NoSegment
    else if items[0] == JNull then ScanThrew
    else if IsToolUse(items[0]) then FoundSegment(items[0])
    else FindToolUse(items[1..])
  }

  /** The scan finds the first tool-use segment, throws only at a `null` before it, and finds none only in an array with neither. */
  lemma {:induction false} FindToolUseSpec(items: seq<Json>)
    ensures var r := FindToolUse(items);
            && (r.FoundSegment? ==>
                  exists i :: 0 <= i < |items| && items[i] == r.segment && IsToolUse(items[i])
                    && forall j :: 0 <= j < i ==> items[j] != JNull && !IsToolUse(items[j]))
            && (r.NoSegment? <==> forall j :: 0 <= j < |items| ==> items[j] != JNull && !IsToolUse(items[j]))
            && (r.ScanThrew? ==>
                  exists i :: 0 <= i < |items| && items[i] == JNull
                    && forall j :: 0 <= j < i ==> !IsToolUse(items[j]))
  {
    if |items| > 0 && items[0] != JNull && !IsToolUse(items[0]) {
      FindToolUseSpec(items[1..]);
      var r := FindToolUse(items[1..]);
      assert forall j :: 1 <= j < |items| ==> items[j] == items[1..][j - 1];
      if r.FoundSegment? {
        var i :| 0 <= i < |items[1..]| && items[1..][i] == r.segment && IsToolUse(items[1..][i])
                 && forall j :: 0 <= j < i ==> items[1..][j] != JNull && !IsToolUse(items[1..][j]);
        assert items[i + 1] == r.segment;
      }
      if r.ScanThrew? {
        var i :| 0 <= i < |items[1..]| && items[1..][i] == JNull && forall j :: 0 <= j < i ==> !IsToolUse(items[1..][j]);
        assert items[i + 1] == JNull;
      }
    }
  }

  /** A content segment of `type` "text" whose `text` is truthy. */
  predicate IsTextSegment(c: Json) {
    Get(c, "type") == Some(JStr("text")) && TruthyOpt(Get(c, "text"))
  }

  /** The texts of the text segments, in order, each in the string form `join` gives it. */
  function SegmentTexts(items: seq<Json>): (texts: seq<string>)
    ensures |texts| <= |items|
  {
    if |items| == 0 then []
    else
      var rest := SegmentTexts(items[1..]);
      if IsTextSegment(items[0]) then [ToJsString(Get(items[0], "text").value)] + rest else rest
  }

  /** `extractTextContent`; `None` when a `null` segment makes the filter throw. */
  function ExtractTextContent(content: Option<Json>): (r: Option<string>)
    ensures r.None? <==> content.Some? && content.value.JArr? && JNull in content.value.items
  {
    match content
    case Some(JStr(s)) => Some(s)
    case Some(JArr(items)) => if JNull in items then None else Some(Text.Join(SegmentTexts(items), "\n"))
    case _ => Some("")
  }

  datatype MessageOutcome = Emitted(event: ParsedEvent) | Dropped | Threw

  datatype MessageResult = MessageResult(outcome: MessageOutcome, state: SessionState)

  /** The event a session message becomes, without its truncation and bookkeeping. */
  function MessageShape(msg: Json, host: Host): Option<Option<Shape>> {
    var role := Get(msg, "role");
    var content := Get(msg, "content");
    if role == Some(JStr("user")) then
      match ExtractTextContent(content)
      case None => None
      case Some(text) => Some(Some(Shape(Prompt, "User Prompt", text, None)))
    else if role == Some(JStr("assistant")) then
      if content.Some? && content.value.JArr? then
        match FindToolUse(content.value.items)
        case ScanThrew => None
        case FoundSegment(segment) =>
          var name := StringField(segment, "name");
          Some(Some(Shape(Action, name.GetOr("Tool"), RenderInput(Get(segment, "input"), host), name)))
        case NoSegment =>
          Some(Some(Shape(Thought, "Thinking", Text.Join(SegmentTexts(content.value.items), "\n"), None)))
      else
        Some(Some(Shape(Thought, "Thinking", if content.Some? && content.value.JStr? then content.value.s else "", None)))
    else Some(None)
  }

  /**
   * `parseSessionMessage` on the session's record `before`. `Threw` is the
   * TypeError of reading a member of `null`; `Dropped` is the `null` return
   * for any role other than user and assistant.
   */
  function SessionMessage(msg: Json, sessionId: string, before: SessionState, id: string, now: int, host: Host): MessageResult {
    if msg == JNull then MessageResult(Threw, before)
    else
      var stamp := Get(msg, "timestamp");
      var timestamp := if TruthyOpt(stamp) then host.dateOf(stamp.value) else now;
      match MessageShape(msg, host)
      case None => MessageResult(Threw, before)
      case Some(None) => MessageResult(Dropped, before)
      case Some(Some(shape)) =>
        var event := ParsedEvent(id, Watcher, None, shape.toolName, sessionId, timestamp,
                                 Text.Truncate(shape.content, CONTENT_MAX), shape.nodeType, shape.labelText,
                                 before.currentAgentId);
        MessageResult(Emitted(event), before.(lastNodeId := Some(id)))
  }

  // ----- the tracker -----

  /** The `Map<string, SessionState>` shared by the hook route, the bridge and the log watcher. */
  class SessionTracker {
    var sessions: map<string, SessionState>

    constructor()
      ensures sessions == map[]
    {
      sessions := map[];
    }

    /** The last node of a session, none when the tracker has no record of it. */
    function LastNodeOf(sessionId: string): (r: Option<string>)
      reads this
      ensures r == Lookup(sessions, sessionId).lastNodeId
    {
      if sessionId in sessions then sessions[sessionId].lastNodeId else None
    }

    /** `getOrCreateSession`: the session's record, inserted as `{null, null}` when missing. */
    method GetOrCreateSession(sessionId: string) returns (state: SessionState)
      modifies this
      ensures state == Lookup(old(sessions), sessionId)
      ensures sessions == old(sessions)[sessionId := state]
    {
      if sessionId in sessions {
        state := sessions[sessionId];
      } else {
        state := NEW_SESSION;
        sessions := sessions[sessionId := state];
      }
    }

    /**
     * `parseHookEvent`, with `id` the fresh node id and `now` the clock. The
     * source updates the tracker's record in place; here the record is a
     * value written back once it is final.
     */
    method ParseHookEvent(hookType: string, payload: Json, id: string, now: int, host: Host) returns (event: ParsedEvent)
      modifies this
      ensures var sid := HookSessionId(payload);
              var o := HookEvent(hookType, payload, Lookup(old(sessions), sid), id, now, host);
              event == o.event && sessions == old(sessions)[sid := o.state]
    {
      var sessionId := HookSessionId(payload);
      var state := GetOrCreateSession(sessionId);
      ghost var before := state;
      var parentAgentId := state.currentAgentId;
      var shape := HookNode(hookType, payload, host);
      HookEventOfShape(hookType, payload, before, id, now, host, shape);
      if hookType == "PreToolUse" && shape.toolName == Some("Task") {
        state := state.(currentAgentId := Some(id));
      } else if hookType == "Stop" || hookType == "SubagentStop" {
        state := state.(currentAgentId := None);
      }
      assert state.currentAgentId == AgentAfterHook(hookType, payload, parentAgentId, id);
      event := ParsedEvent(id, Hook, Some(hookType), shape.toolName, sessionId, now,
                           Text.Truncate(shape.content, CONTENT_MAX), shape.nodeType, shape.labelText, parentAgentId);
      state := state.(lastNodeId := Some(id));
      sessions := sessions[sessionId := state];
    }

    /** `parseSessionMessage`, with `id` the fresh node id and `now` the clock. */
    method ParseSessionMessage(msg: Json, sessionId: string, id: string, now: int, host: Host) returns (outcome: MessageOutcome)
      modifies this
      ensures var o := SessionMessage(msg, sessionId, Lookup(old(sessions), sessionId), id, now, host);
              outcome == o.outcome && sessions == old(sessions)[sessionId := o.state]
    {
      var state := GetOrCreateSession(sessionId);
      if msg == JNull {
        return Threw;
      }
      var stamp := Get(msg, "timestamp");
      var timestamp := if TruthyOpt(stamp) then host.dateOf(stamp.value) else now;
      var shape := MessageNode(msg, host);
      if shape.None? {
        return Threw;
      }
      if shape.value.None? {
        return Dropped;
      }
      var node := shape.value.value;
      var event := ParsedEvent(id, Watcher, None, node.toolName, sessionId, timestamp,
                               Text.Truncate(node.content, CONTENT_MAX), node.nodeType, node.labelText, state.currentAgentId);
      sessions := sessions[sessionId := sessions[sessionId].(lastNodeId := Some(id))];
      outcome := Emitted(event);
    }
  }

  /** The switch on the hook type in `parseHookEvent`: the node a hook becomes. */
  method HookNode(hookType: string, payload: Json, host: Host) returns (shape: Shape)
    ensures shape == HookShape(hookType, payload, host)
  {
    var nodeType: NodeKind;
    var labelText: string;
    var content: string;
    var toolName: Option<string> := None;
    if hookType == "PreToolUse" {
      toolName := StringField(payload, "tool_name");
      var input := Get(payload, "tool_input");
      if toolName == Some("Task") {
        nodeType := Agent;
        labelText := "Agent: " + Text.Truncate(AgentTitle(input), AGENT_TITLE_MAX);
        content := RenderInput(input, host);
      } else if toolName.GetOr("") in TOOL_ACTIONS {
        nodeType := Action;
        labelText := toolName.GetOr("Tool");
        content := FormatToolInput(toolName.value, input, host);
      } else {
        nodeType := Action;
        labelText := toolName.GetOr("Unknown Tool");
        content := RenderInput(input, host);
      }
    } else if hookType == "PostToolUse" {
      toolName := StringField(payload, "tool_name");
      var error := StringField(payload, "error");
      if Present(error) {
        nodeType := Error;
        labelText := "Error: " + toolName.GetOr("Tool");
        content := error.value;
      } else {
        nodeType := Result;
        labelText := "Result: " + toolName.GetOr("Tool");
        content := StringField(payload, "tool_result").GetOr("");
      }
    } else if hookType == "Stop" {
      nodeType := Result;
      labelText := "Stop";
      content := StringField(payload, "tool_result").GetOr(StringField(payload, "stop_reason").GetOr("Session stopped"));
    } else if hookType == "SubagentStop" {
      nodeType := Result;
      labelText := "Agent Complete";
      content := StringField(payload, "tool_result").GetOr("Subagent finished");
    } else {
      nodeType := Thought;
      labelText := hookType;
      content := host.stringify(payload);
    }
    shape := Shape(nodeType, labelText, content, toolName);
  }

  /**
   * The role branches of `parseSessionMessage`: the node a message becomes,
   * `Some(None)` for another role, `None` when reading its content throws.
   */
  method MessageNode(msg: Json, host: Host) returns (shape: Option<Option<Shape>>)
    ensures shape == MessageShape(msg, host)
  {
    var role := Get(msg, "role");
    var body := Get(msg, "content");
    if role == Some(JStr("user")) {
      var text := ExtractTextContent(body);
      if text.None? {
        return None;
      }
      shape := Some(Some(Shape(Prompt, "User Prompt", text.value, None)));
    } else if role == Some(JStr("assistant")) {
      if body.Some? && body.value.JArr? {
        var scan := FindToolUse(body.value.items);
        FindToolUseSpec(body.value.items);
        if scan.ScanThrew? {
          return None;
        } else if scan.FoundSegment? {
          var toolName := StringField(scan.segment, "name");
          shape := Some(Some(Shape(Action, toolName.GetOr("Tool"), RenderInput(Get(scan.segment, "input"), host), toolName)));
        } else {
          shape := Some(Some(Shape(Thought, "Thinking", ExtractTextContent(body).value, None)));
        }
      } else {
        var text := if body.Some? && body.value.JStr? then body.value.s else "";
        shape := Some(Some(Shape(Thought, "Thinking", text, None)));
      }
    } else {
      shape := Some(None);
    }
  }

  // ----- properties of the hook normaliser -----

  /** The event carries the fresh id and the session's `lastNodeId` becomes it. */
  lemma HookEventRecordsLastNode(hookType: string, payload: Json, before: SessionState, id: string, now: int, host: Host)
    ensures var o := HookEvent(hookType, payload, before, id, now, host);
            o.event.id == id && o.state.lastNodeId == Some(id) && o.event.source == Hook
            && o.event.sessionId == HookSessionId(payload) && o.event.timestamp == now
  {
  }

  /** The parent is the agent open before the call; a fresh id therefore never names itself as parent. */
  lemma HookParentIsPriorAgent(hookType: string, payload: Json, before: SessionState, id: string, now: int, host: Host)
    ensures HookEvent(hookType, payload, before, id, now, host).event.parentAgentId == before.currentAgentId
    ensures before.currentAgentId != Some(id) ==>
      HookEvent(hookType, payload, before, id, now, host).event.parentAgentId != Some(id)
  {
  }

  /** How a hook event moves the session's agent context. */
  lemma AgentTransitions(hookType: string, payload: Json, before: SessionState, id: string, now: int, host: Host)
    ensures var after := HookEvent(hookType, payload, before, id, now, host).state.currentAgentId;
            && (hookType == "PreToolUse" && StringField(payload, "tool_name") == Some("Task") ==> after == Some(id))
            && (hookType in {"Stop", "SubagentStop"} ==> after == None)
            && (hookType == "PostToolUse" ==> after == before.currentAgentId)
            && (hookType == "PreToolUse" && StringField(payload, "tool_name") != Some("Task") ==> after == before.currentAgentId)
            && (hookType !in {"PreToolUse", "PostToolUse", "Stop", "SubagentStop"} ==> after == before.currentAgentId)
  {
  }

  /** The node kind each hook type produces, and the label of an unknown hook type. */
  lemma HookKindMapping(hookType: string, payload: Json, before: SessionState, id: string, now: int, host: Host)
    ensures var e := HookEvent(hookType, payload, before, id, now, host).event;
            && (e.nodeType == Agent <==> hookType == "PreToolUse" && StringField(payload, "tool_name") == Some("Task"))
            && (e.nodeType == Action <==> hookType == "PreToolUse" && StringField(payload, "tool_name") != Some("Task"))
            && (e.nodeType == Error <==> hookType == "PostToolUse" && Present(StringField(payload, "error")))
            && (e.nodeType == Result <==>
                  (hookType == "PostToolUse" && !Present(StringField(payload, "error")))
                  || hookType == "Stop" || hookType == "SubagentStop")
            && (e.nodeType == Thought <==> hookType !in {"PreToolUse", "PostToolUse", "Stop", "SubagentStop"})
            && (e.nodeType == Thought ==> e.labelText == hookType)
            && e.nodeType != Prompt
  {
  }

  /** Content is cut at 2000 characters, and an agent's title at 40. */
  lemma HookTruncation(hookType: string, payload: Json, before: SessionState, id: string, now: int, host: Host)
    ensures var e := HookEvent(hookType, payload, before, id, now, host).event;
            && |e.content| <= CONTENT_MAX + 3
            && e.content == Text.Truncate(HookShape(hookType, payload, host).content, CONTENT_MAX)
            && (e.nodeType == Agent ==>
                  e.labelText[..7] == "Agent: " && |e.labelText| <= 7 + AGENT_TITLE_MAX + 3
                  && e.labelText[7..] == Text.Truncate(AgentTitle(Get(payload, "tool_input")), AGENT_TITLE_MAX))
  {
  }

  /** An error in a `PostToolUse` payload becomes the node's content. */
  lemma PostToolUseContent(payload: Json, before: SessionState, id: string, now: int, host: Host)
    ensures var e := HookEvent("PostToolUse", payload, before, id, now, host).event;
            var error := StringField(payload, "error");
            && (Present(error) ==> e.content == Text.Truncate(error.value, CONTENT_MAX))
            && (!Present(error) ==> e.content == Text.Truncate(StringField(payload, "tool_result").GetOr(""), CONTENT_MAX))
  {
  }

  // ----- properties of formatToolInput -----

  lemma FormatMissingInput(toolName: string, input: Option<Json>, host: Host)
    requires !TruthyOpt(input)
    ensures FormatToolInput(toolName, input, host) == ""
  {
  }

  lemma FormatBashAndRead(input: Json, host: Host, command: string, path: string)
    requires Truthy(input)
    ensures Get(input, "command") == Some(JStr(command)) ==> FormatToolInput("Bash", Some(input), host) == command
    ensures Nullish(Get(input, "command")) ==> FormatToolInput("Bash", Some(input), host) == ""
    ensures Get(input, "file_path") == Some(JStr(path)) ==> FormatToolInput("Read", Some(input), host) == path
    ensures Nullish(Get(input, "file_path")) && Get(input, "path") == Some(JStr(path)) ==>
      FormatToolInput("Read", Some(input), host) == path
  {
  }

  /** Write keeps 500 characters of the new content. */
  lemma FormatWrite(input: Json, host: Host, path: string, content: string)
    requires Truthy(input)
    requires Get(input, "file_path") == Some(JStr(path)) && Get(input, "content") == Some(JStr(content))
    ensures FormatToolInput("Write", Some(input), host) == path + "\n" + Text.Take(content, 500)
  {
  }

  /** Edit keeps 200 characters of each side. */
  lemma FormatEdit(input: Json, host: Host, path: string, oldText: string, newText: string)
    requires Truthy(input)
    requires Get(input, "file_path") == Some(JStr(path))
    requires Get(input, "old_string") == Some(JStr(oldText)) && Get(input, "new_string") == Some(JStr(newText))
    ensures FormatToolInput("Edit", Some(input), host)
              == path + "\n- " + Text.Take(oldText, 200) + "\n+ " + Text.Take(newText, 200)
  {
  }

  /** Grep and Glob search the current directory by default, and Glob's pattern defaults to every file. */
  lemma FormatSearchDefaults(input: Json, host: Host, pattern: string)
    requires Truthy(input) && Nullish(Get(input, "path"))
    ensures Get(input, "pattern") == Some(JStr(pattern)) ==>
      FormatToolInput("Grep", Some(input), host) == "/" + pattern + "/ in ."
    ensures Nullish(Get(input, "pattern")) ==> FormatToolInput("Glob", Some(input), host) == "* in ."
  {
  }

  // ----- properties of the session-message normaliser -----

  /** The message's role decides the kind of node, or that there is none. */
  lemma SessionMessageKinds(msg: Json, sessionId: string, before: SessionState, id: string, now: int, host: Host)
    requires msg != JNull
    ensures var o := SessionMessage(msg, sessionId, before, id, now, host).outcome;
            var role := Get(msg, "role");
            && (role == Some(JStr("user")) ==> o.Threw? || (o.Emitted? && o.event.nodeType == Prompt && o.event.labelText == "User Prompt"))
            && (role == Some(JStr("assistant")) ==> o.Threw? || (o.Emitted? && o.event.nodeType in {Action, Thought}))
            && (role != Some(JStr("user")) && role != Some(JStr("assistant")) ==> o.Dropped?)
            && (o.Emitted? ==> o.event.id == id && o.event.source == Watcher && o.event.sessionId == sessionId)
  {
  }

  /** An assistant message naming a tool becomes an action named after its first tool-use segment. */
  lemma AssistantToolUse(msg: Json, sessionId: string, before: SessionState, id: string, now: int, host: Host, i: nat)
    requires Get(msg, "role") == Some(JStr("assistant"))
    requires Get(msg, "content").Some? && Get(msg, "content").value.JArr?
    requires var items := Get(msg, "content").value.items;
             i < |items| && IsToolUse(items[i]) && forall j :: 0 <= j < i ==> items[j] != JNull && !IsToolUse(items[j])
    ensures var items := Get(msg, "content").value.items;
            var o := SessionMessage(msg, sessionId, before, id, now, host).outcome;
            && o.Emitted? && o.event.nodeType == Action
            && o.event.toolName == StringField(items[i], "name")
            && o.event.labelText == StringField(items[i], "name").GetOr("Tool")
  {
    var items := Get(msg, "content").value.items;
    FirstToolUseIsFound(items, i);
  }

  lemma {:induction false} FirstToolUseIsFound(items: seq<Json>, i: nat)
    requires i < |items| && IsToolUse(items[i])
    requires forall j :: 0 <= j < i ==> items[j] != JNull && !IsToolUse(items[j])
    ensures FindToolUse(items) == FoundSegment(items[i])
  {
    if i > 0 {
      FirstToolUseIsFound(items[1..], i - 1);
    }
  }

  /** Without a tool-use segment an assistant message is a thought holding its text segments joined by newlines. */
  lemma AssistantThought(msg: Json, sessionId: string, before: SessionState, id: string, now: int, host: Host)
    requires Get(msg, "role") == Some(JStr("assistant"))
    requires Get(msg, "content").Some? && Get(msg, "content").value.JArr?
    requires var items := Get(msg, "content").value.items;
             forall j :: 0 <= j < |items| ==> items[j] != JNull && !IsToolUse(items[j])
    ensures var o := SessionMessage(msg, sessionId, before, id, now, host).outcome;
            && o.Emitted? && o.event.nodeType == Thought && o.event.labelText == "Thinking"
            && o.event.content == Text.Truncate(Text.Join(SegmentTexts(Get(msg, "content").value.items), "\n"), CONTENT_MAX)
  {
    FindToolUseSpec(Get(msg, "content").value.items);
  }

  /** A user prompt's text is the message's string content, or its text segments joined by newlines. */
  lemma UserPromptText(msg: Json, sessionId: string, before: SessionState, id: string, now: int, host: Host)
    requires Get(msg, "role") == Some(JStr("user"))
    ensures var o := SessionMessage(msg, sessionId, before, id, now, host).outcome;
            && (Get(msg, "content").Some? && Get(msg, "content").value.JStr? ==>
                  o.Emitted? && o.event.content == Text.Truncate(Get(msg, "content").value.s, CONTENT_MAX))
            && (o.Threw? <==> Get(msg, "content").Some? && Get(msg, "content").value.JArr? && JNull in Get(msg, "content").value.items)
  {
  }

  /**
   * A message that yields no event leaves the record as it was, and no
   * message ever changes the agent context; an emitted one advances `lastNodeId`.
   */
  lemma SessionMessageState(msg: Json, sessionId: string, before: SessionState, id: string, now: int, host: Host)
    ensures var r := SessionMessage(msg, sessionId, before, id, now, host);
            && r.state.currentAgentId == before.currentAgentId
            && (!r.outcome.Emitted? ==> r.state == before)
            && (r.outcome.Emitted? ==> r.state.lastNodeId == Some(id) && r.outcome.event.parentAgentId == before.currentAgentId)
  {
  }

  /** The texts kept from a content array are exactly the truthy `text` members of its text segments, in order. */
  lemma {:induction false} SegmentTextsOfText(items: seq<Json>)
    requires forall j :: 0 <= j < |items| ==>
               (Get(items[j], "type") == Some(JStr("text")) && Get(items[j], "text").Some?
                && Get(items[j], "text").value.JStr? && Get(items[j], "text").value.s != "")
    ensures SegmentTexts(items) == seq(|items|, j requires 0 <= j < |items| => Get(items[j], "text").value.s)
  {
    if |items| > 0 {
      SegmentTextsOfText(items[1..]);
    }
  }

  /** The filter works segment by segment: the texts of two arrays placed end to end
      are the texts of the first followed by those of the second. */
  lemma {:induction false} SegmentTextsAppend(a: seq<Json>, b: seq<Json>)
    ensures SegmentTexts(a + b) == SegmentTexts(a) + SegmentTexts(b)
  {
    if |a| == 0 {
      assert a + b == b;
    } else {
      assert (a + b)[0] == a[0];
      assert (a + b)[1..] == a[1..] + b;
      SegmentTextsAppend(a[1..], b);
    }
  }

  /** A single segment keeps its text, in `join`'s string form, exactly when it is a
      text segment with a truthy `text`; a tool use, a tool result or an empty text
      is dropped. */
  lemma SegmentTextsOfOne(x: Json)
    ensures SegmentTexts([x]) == if IsTextSegment(x) then [ToJsString(Get(x, "text").value)] else []
  {
    assert [x][1..] == [];
  }
}
