# neural-claude-viz, modelled in Dafny

neural-claude-viz shows an agent session as a live graph of "neurons". A
server normalises agent hook events, bridge uploads and session-log lines
into graph events. It broadcasts them over a WebSocket. A browser client
keeps the graph in a store and draws it on a canvas.

This project models the parts of that pipeline that decide what the graph
contains and how it is laid out.

On the server side:
- the session tracker and the event normaliser;
- the three ingestion paths: the hook route, the bridge route and the log
  tail;
- the auth decision they share.

On the client side:
- the graph store and the message reducer that feeds it;
- the reconnect back-off;
- the canvas interaction state (hit testing, zoom, drag and click);
- the colour arithmetic of the node renderer;
- the node-kind tables.

One module per source file:

| module | file | source |
|---|---|---|
| `Wrappers` | wrappers.dfy | `Option` |
| `Text` | text.dfy | truncation, trim, split/join, decimal rendering of integers |
| `JsValue` | js_value.dfy | loosely typed JSON values, with JavaScript property reads, truthiness, `??` and `String(v)` |
| `Types` | types.dfy | src/types.ts: node kinds, statuses, `COLORS`, `NODE_CONFIG` |
| `Server` | server.dfy | the shared auth decision, the server's colour table, the broadcast channel, the three-message emission |
| `EventParser` | event_parser.dfy | server/eventParser.ts: the `SessionTracker` class and the normaliser's specification functions |
| `HookHandler` | hook_handler.dfy | server/hookHandler.ts |
| `Ingest` | ingest.dfy | the per-message loop that the bridge and the log tail share |
| `Bridge` | bridge.dfy | the `/api/bridge` route of server/index.ts |
| `SessionWatcher` | session_watcher.dfy | server/sessionWatcher.ts |
| `GraphStore` | graph_store.dfy | src/store/graphStore.ts: the `Store` class with `seq` fields, and its actions as functions on a `Graph` value |
| `UseSocket` | use_socket.dfy | src/hooks/useSocket.ts: dispatch, and the `Connection` class holding the socket's refs |
| `Interaction` | interaction.dfy | src/canvas/interaction.ts: the `Pointer` class holding the drag flags |
| `NodeColors` | node_colors.dfy | the colour helpers of src/canvas/nodes.ts |

How the code that changes state is modelled:
- It is written as classes with methods: the tracker, the channel, the
  watcher's offsets, the store, the socket refs and the pointer state.
- Each method is proved equal to a specification function of the old state.
- The properties are lemmas about those functions.

Values that come from I/O are parameters:
- `nanoid()` and `Date.now()` are a `Fresh` record per event, or a function
  from the item's index to one.
- `JSON.stringify` and `new Date(v).getTime()` are the functions of a `Host`.
- `JSON.parse` is a function from text to an optional value on the
  watcher, and an optional decoded message on the client.
- `readFile` is an optional string.
- `performance.now()` is the `birthTime` argument.
- The environment variables are an `Env` record.

## Model

| member | source | states |
|---|---|---|
| Text.Take | server/eventParser.ts:208-210 | `slice(0, n)` is a prefix of the string, of length min(length, n) |
| Text.Truncate | server/eventParser.ts:220-223 | a string of length ≤ max comes back unchanged; a longer one becomes its first max characters followed by "..."; the result is never longer than max + 3 |
| Text.TruncateIdempotent | server/eventParser.ts:220-223 | truncating twice gives the same as truncating once |
| Text.TrimStart | server/sessionWatcher.ts:81 | the result is a suffix; what was cut is all whitespace; the result does not start with whitespace |
| Text.TrimEnd | server/sessionWatcher.ts:81 | the result is a prefix; what was cut is all whitespace; the result does not end with whitespace |
| Text.TrimEmptyIffBlank | server/sessionWatcher.ts:76 | the trim of a string is empty exactly when every character is JavaScript whitespace |
| Text.IndexOf | server/sessionWatcher.ts:81 | the index of the first occurrence of the character, or -1 exactly when it does not occur |
| Text.Split | server/sessionWatcher.ts:81 | splitting on a character gives at least one part, and no part contains the separator |
| Text.SplitThenJoin | server/sessionWatcher.ts:81 | joining the parts of a split with the separator restores the original text |
| Text.JoinThenSplit | server/eventParser.ts:195 | splitting a join of separator-free parts gives the parts back |
| Text.NatToDecimal | src/canvas/nodes.ts:13 | the rendering of a natural number is a non-empty run of digits with no leading zero |
| Text.NatToDecimalRoundTrip | src/canvas/nodes.ts:13 | reading the rendered digits back gives the number |
| Text.IntToDecimal | src/canvas/nodes.ts:13 | the rendering of an integer is never empty |
| Text.IntToDecimalRoundTrip | src/canvas/nodes.ts:13 | parsing the rendering of any integer, negative ones included, gives the integer back |
| Text.IntToDecimalHasNoPunctuation | src/canvas/nodes.ts:13 | a rendered integer contains neither "," nor ")", so it cannot break the fields of a CSS colour |
| JsValue.LastMemberSpec | server/eventParser.ts:20 | a property read finds a value exactly when some member has that key, and the value found is that of the last such member |
| JsValue.Coalesce | server/eventParser.ts:206 | `??` gives the value unless it is null or absent, and then the default |
| Types.KindName | src/types.ts:4 | the wire name of each kind; specified by KindNameRoundTrip and ExactlySixKinds |
| Types.KindFromName | src/types.ts:4 | a name is read as a kind only when it is that kind's name |
| Types.KindNameRoundTrip | src/hooks/useSocket.ts:80-81 | every kind's name reads back as that kind, and a name reads as no kind exactly when it is none of the six names |
| Types.ExactlySixKinds | src/types.ts:4 | there are exactly six node kinds, listed without repetition |
| Types.ExactlyThreeStatuses | src/types.ts:17 | there are exactly three statuses, listed without repetition |
| Types.ConfigByName | src/hooks/useSocket.ts:80-81 | a message type has an own `NODE_CONFIG` entry exactly when it names a kind |
| Types.NodeConfigShape | src/types.ts:66-85 | `NODE_CONFIG` has an entry for every kind; only `agent` has a ring; every radius is below its glow radius; every colour equals the `COLORS` entry of the same name |
| Server.Authorize | server/hookHandler.ts:30-42 | local mode (the default) is always authorized; otherwise a missing key is a misconfiguration; with a key, the request is authorized exactly when the header is "Bearer " + key, and unauthorized otherwise |
| Server.AuthFailure | server/hookHandler.ts:33-40 | a misconfiguration is answered with 500 and a failed check with 401 |
| Server.NodeColorMatchesConfig | server/hookHandler.ts:11-18 | the server's edge colour for each kind is that kind's `NODE_CONFIG` colour |
| Server.Channel.constructor | server/index.ts:39 | a new channel has sent nothing |
| Server.Channel.Broadcast | server/index.ts:39 | broadcasting appends exactly that message to what was sent |
| Server.Emission | server/hookHandler.ts:68-112 | an event's broadcasts start with `node_add` and end with `event_log`; there are three exactly when a previous node exists, and the middle one is the edge from that node to the event, coloured by the event's kind |
| EventParser.SessionTracker.constructor | server/index.ts:24 | the tracker starts empty |
| EventParser.SessionTracker.LastNodeOf | server/hookHandler.ts:62-63 | the previous node is the session's `lastNodeId`, or none for an unknown session |
| EventParser.SessionTracker.GetOrCreateSession | server/eventParser.ts:177-187 | returns the session's record, or {null, null} when there is none, and that record is then stored under the session |
| EventParser.SessionTracker.ParseHookEvent | server/eventParser.ts:15-112 | the event and the session's new record are those `HookEvent` gives on the session's prior record; only that session's entry changes |
| EventParser.SessionTracker.ParseSessionMessage | server/eventParser.ts:117-175 | the outcome and the session's new record are those `SessionMessage` gives on the prior record; only that session's entry changes |
| EventParser.HookNode | server/eventParser.ts:31-95 | the switch over hook types computes exactly `HookShape` |
| EventParser.MessageNode | server/eventParser.ts:131-159 | the role branches compute exactly `MessageShape` |
| EventParser.HookShape | server/eventParser.ts:31-95 | what the switch over hook types decides before truncation; specified by HookKindMapping, AgentTransitions, HookTruncation, PostToolUseContent and the Format lemmas |
| EventParser.HookEvent | server/eventParser.ts:15-112 | `parseHookEvent` as a function of the hook type, the payload and the session's prior record; specified by HookEventRecordsLastNode, HookParentIsPriorAgent, AgentTransitions, HookKindMapping and HookTruncation |
| EventParser.AgentTitle | server/eventParser.ts:39 | the title of a spawned agent; specified by HookTruncation |
| EventParser.HookEventRecordsLastNode | server/eventParser.ts:97-111 | a hook event carries the fresh id, source hook, the session id and the clock value, and the session's `lastNodeId` becomes that id |
| EventParser.HookParentIsPriorAgent | server/eventParser.ts:29 | a hook event's parent agent is the session's `currentAgentId` from before the call, so a new agent node never names itself as its parent |
| EventParser.AgentTransitions | server/eventParser.ts:31-95 | `PreToolUse` of `Task` makes the new node the current agent; `Stop` and `SubagentStop` clear it; `PostToolUse`, other `PreToolUse` events and unknown hook types leave it unchanged |
| EventParser.HookKindMapping | server/eventParser.ts:31-95 | (each case is an if-and-only-if) `Task` gives agent; other `PreToolUse` gives action; `PostToolUse` gives error when `error` is present and result otherwise; `Stop` and `SubagentStop` give result; any other type gives thought labelled with the type; never prompt |
| EventParser.HookTruncation | server/eventParser.ts:39-41 | content is the branch's content cut at 2000; an agent label is "Agent: " followed by its title cut at 40 |
| EventParser.PostToolUseContent | server/eventParser.ts:58-69 | a `PostToolUse` event's content is its error when it has one, and otherwise its `tool_result` or "" |
| EventParser.FormatToolInput | server/eventParser.ts:200-218 | `formatToolInput`; specified by FormatMissingInput, FormatBashAndRead, FormatWrite, FormatEdit and FormatSearchDefaults |
| EventParser.FormatMissingInput | server/eventParser.ts:201 | a missing or falsy tool input formats as "" |
| EventParser.FormatBashAndRead | server/eventParser.ts:203-206 | Bash gives the command ("" when null or absent); Read gives `file_path`, else `path` |
| EventParser.FormatWrite | server/eventParser.ts:207-208 | Write gives the path, a newline, and the first 500 characters of the content |
| EventParser.FormatEdit | server/eventParser.ts:209-210 | Edit gives the path, then "- " and the first 200 characters of the old text, then "+ " and the first 200 of the new text |
| EventParser.FormatSearchDefaults | server/eventParser.ts:211-214 | Grep gives "/pattern/ in ." when no path is given; Glob's pattern defaults to "*" |
| EventParser.FindToolUseSpec | server/eventParser.ts:138 | the scan returns the first tool-use segment, all earlier elements non-null; it finds none exactly when no element is null or a tool use; it throws only at a null element before any tool use |
| EventParser.FirstToolUseIsFound | server/eventParser.ts:138 | a tool use with only non-null, non-tool-use elements before it is what the scan returns |
| EventParser.SegmentTexts | server/eventParser.ts:192-195 | there are no more texts than segments |
| EventParser.SegmentTextsAppend | server/eventParser.ts:192-194 | the filter goes segment by segment: the texts of two arrays end to end are the first's texts followed by the second's |
| EventParser.SegmentTextsOfOne | server/eventParser.ts:193-194 | a single segment keeps its text exactly when it is a text segment with a truthy `text`; a tool use, a tool result or an empty text is dropped; so, with SegmentTextsAppend, a mixed array keeps exactly its text segments' texts, in order |
| EventParser.SegmentTextsOfText | server/eventParser.ts:192-195 | when every segment is a non-empty text segment, the texts are exactly theirs, in order |
| EventParser.ExtractTextContent | server/eventParser.ts:189-198 | extracting text content throws exactly when the content is an array holding a null element |
| EventParser.MessageShape | server/eventParser.ts:131-159 | what the role branches decide; specified by SessionMessageKinds, AssistantToolUse, AssistantThought and UserPromptText |
| EventParser.SessionMessage | server/eventParser.ts:117-175 | `parseSessionMessage` as a function of the message and the session's prior record; specified by SessionMessageKinds and SessionMessageState |
| EventParser.SessionMessageKinds | server/eventParser.ts:131-159 | `user` gives a prompt labelled "User Prompt"; `assistant` gives an action or a thought; any other role is dropped; an emitted event carries the fresh id, source watcher and the session id |
| EventParser.AssistantToolUse | server/eventParser.ts:137-145 | an assistant message whose first tool-use segment is at i gives an action named after that segment, labelled "Tool" when it has no name |
| EventParser.AssistantThought | server/eventParser.ts:146-150 | an assistant content array with no tool use gives a thought labelled "Thinking", whose content is the texts joined with newlines, cut at 2000 |
| EventParser.UserPromptText | server/eventParser.ts:131-134 | a user message with string content gives that string, cut at 2000; it throws exactly when its content array holds a null element |
| EventParser.SessionMessageState | server/eventParser.ts:170-173 | a session message never changes `currentAgentId`; a dropped or thrown message leaves the record as it was; an emitted one sets `lastNodeId` to its id and takes the prior agent as its parent |
| HookHandler.WithSessionId | server/hookHandler.ts:56-59 | after the default is applied, the payload is an object |
| HookHandler.SessionDefault | server/hookHandler.ts:56-61 | a payload with a falsy `session_id` is tracked as "default", and one with a non-empty string `session_id` under that string |
| HookHandler.HookRoute | server/hookHandler.ts:26-127 | the whole hook route as a function of the request and the tracker; specified by HookRejections, AcceptedRoute, HookMessageOrder, StatusRule, HookIsolation and HookChain |
| HookHandler.HandleHook | server/hookHandler.ts:26-127 | the response, the tracker and the broadcasts are exactly those `HookRoute` gives on the prior tracker |
| HookHandler.BroadcastHook | server/hookHandler.ts:68-124 | an accepted hook broadcasts its emission, then a `node_update` completing the previous node exactly when it is a `PostToolUse` that has one |
| HookHandler.AcceptedRoute | server/hookHandler.ts:56-126 | an authorized request with a valid type and an object body is answered 200 with the event id; only the session's record is replaced; the broadcasts are the emission then the optional update |
| HookHandler.HookRejections | server/hookHandler.ts:29-54 | a failed auth check, an unknown hook type or a non-object body is answered with its error, reading and changing no session and broadcasting nothing; the answer is 200 exactly when none of these holds |
| HookHandler.HookMessageOrder | server/hookHandler.ts:68-126 | an accepted hook broadcasts `node_add` with the hook's status, then the edge from the previous node (if any), then `event_log`, then (after a `PostToolUse` with a previous node) the `node_update` completing it |
| HookHandler.StatusRule | server/hookHandler.ts:78-80 | the added node is active exactly for `PreToolUse`, and completed for the other three types |
| HookHandler.HookIsolation | server/hookHandler.ts:61-66 | an accepted hook leaves every other session's record as it was |
| HookHandler.HookChain | server/hookHandler.ts:86-98 | two accepted hooks in a row for one session: the second one's edge runs from the first one's node to its own |
| Ingest.Step | server/index.ts:106-163 | one pass of the per-message loop; specified by ApplyCases, StepKeepsShape and Bridge.RolelessSkipped |
| Ingest.IngestRun | server/index.ts:106-163 | the whole loop over a batch; specified by ThrewSticks, RunShape and IngestBatch |
| Ingest.ThrewSticks | server/index.ts:106-163 | once a message throws, the rest of the batch changes nothing |
| Ingest.EmissionBroadcasts | server/index.ts:117-160 | each event broadcasts one `node_add`, and one edge exactly when it had a previous node, from that node to the event |
| Ingest.ApplyCases | server/index.ts:113-162 | recording a parse stores the session's new record; it throws exactly when the parse threw; an emitted event, with its source overwritten, adds its broadcasts and one to the count; otherwise nothing is added |
| Ingest.StepKeepsShape | server/index.ts:106-163 | one message keeps the batch invariant: count = events = `node_add`s; edges chain the events from the prior node; every event has the batch's source and session |
| Ingest.RunShape | server/index.ts:106-163 | the whole batch keeps that invariant |
| Ingest.BroadcastEvent | server/index.ts:117-160 | an accepted message broadcasts its emission with status active |
| Ingest.IngestItem | server/index.ts:106-114 | one item of the loop does what one `Step` of the batch specification does |
| Ingest.IngestMessage | server/index.ts:109-162 | a message with a role does what recording its parse does |
| Ingest.IngestBatch | server/index.ts:106-163 | the loop leaves the tracker, the broadcasts, the count and the thrown flag as `IngestRun` gives them |
| Bridge.BridgeRoute | server/index.ts:80-166 | the bridge route as a function of the request and the tracker; specified by BridgeRejections, BridgeBatch and RolelessSkipped |
| Bridge.HandleBridge | server/index.ts:80-166 | the response, the tracker and the broadcasts are exactly those `BridgeRoute` gives on the prior tracker |
| Bridge.BridgeRejections | server/index.ts:84-101 | the bridge applies the hook route's auth decision; a body without `sessionId` or a `messages` array gets 400, and nothing is processed or changed |
| Bridge.BridgeBatch | server/index.ts:103-165 | an accepted batch is ingested in order; `processed` is the number of `node_add`s sent; every event has source bridge and status active; its edges chain the accepted messages from the session's prior node |
| Bridge.RolelessSkipped | server/index.ts:107 | a message without a role changes nothing |
| SessionWatcher.WatcherGate | server/sessionWatcher.ts:31-34 | the watcher starts exactly when the deploy mode is not "remote", so it starts when the mode is unset |
| SessionWatcher.Basename | server/sessionWatcher.ts:79 | `path.basename` with an extension removed; specified by LastSegment, LastSegmentAfterSlash and SessionIdOfLogFile |
| SessionWatcher.LastSegment | server/sessionWatcher.ts:79 | the last segment of a path is a suffix with no "/", preceded by "/" when the path is longer |
| SessionWatcher.LastSegmentAfterSlash | server/sessionWatcher.ts:79 | the last segment of dir + "/" + name is name |
| SessionWatcher.SessionIdOfLogFile | server/sessionWatcher.ts:79 | the session id of dir/name.jsonl is name |
| SessionWatcher.NonBlankLines | server/sessionWatcher.ts:81 | the kept lines have non-empty trims and are lines of the input |
| SessionWatcher.NonBlankLinesKeep | server/sessionWatcher.ts:81 | every line with a non-empty trim is kept |
| SessionWatcher.LinesOfText | server/sessionWatcher.ts:81 | of the lines of a split, exactly the blank ones are dropped, and none of those kept contains a newline |
| SessionWatcher.FileRun | server/sessionWatcher.ts:63-147 | one file event as a function of the read, the offsets and the tracker; specified by OffsetAdvances, OnlyNewText, BlankTextIgnored, QuietAtEnd, ReprocessingIsQuiet, WatcherBatch and MalformedLineSkipped |
| SessionWatcher.Watcher.constructor | server/sessionWatcher.ts:21 | no offsets are recorded at start |
| SessionWatcher.Watcher.ProcessFile | server/sessionWatcher.ts:63-147 | the offsets, the tracker and the broadcasts are exactly those `FileRun` gives |
| SessionWatcher.OffsetAdvances | server/sessionWatcher.ts:69-74 | after a read, the file's offset is the full content length; a failed read changes nothing |
| SessionWatcher.OnlyNewText | server/sessionWatcher.ts:70-73 | with the offset at the old length, exactly the appended text is processed |
| SessionWatcher.BlankTextIgnored | server/sessionWatcher.ts:76 | new text that is only whitespace broadcasts nothing and leaves the tracker alone |
| SessionWatcher.QuietAtEnd | server/sessionWatcher.ts:70-76 | a file read again with no new content changes nothing |
| SessionWatcher.ReprocessingIsQuiet | server/sessionWatcher.ts:70-76 | processing the same content twice broadcasts nothing the second time |
| SessionWatcher.WatcherBatch | server/sessionWatcher.ts:79-143 | each accepted line broadcasts one `node_add` with status active, for the file's session; the edges chain the accepted lines from the session's prior node |
| SessionWatcher.MalformedLineSkipped | server/sessionWatcher.ts:84-89 | a line that does not parse changes nothing, and the following lines are still processed |
| GraphStore.FindIndex | src/store/graphStore.ts:83 | `find` returns the first node with the id, and nothing exactly when none has it |
| GraphStore.NodeById | src/store/graphStore.ts:145 | `getNodeById` finds a node exactly when one has the id, and that node is in the store with that id |
| GraphStore.EdgesFrom | src/store/graphStore.ts:108 | the sibling edges are exactly the edges out of the source |
| GraphStore.EdgesFromKeepsOrder | src/store/graphStore.ts:108 | the filter keeps the order of the edges |
| GraphStore.EdgesByNode | src/store/graphStore.ts:146 | `getEdgesByNode` returns exactly the edges with the node as source or target |
| GraphStore.EdgesByNodeKeepsOrder | src/store/graphStore.ts:146 | that filter keeps the order of the edges |
| GraphStore.AgentChildren | src/store/graphStore.ts:147 | `getAgentChildren` returns exactly the nodes whose parent agent is the given id |
| GraphStore.AgentChildrenKeepsOrder | src/store/graphStore.ts:147 | that filter keeps the order of the nodes |
| GraphStore.Store.constructor | src/store/graphStore.ts:32-38 | the store starts empty, with nothing selected, the camera at (0, 0) with scale 1, and offline |
| GraphStore.Store.AddNode | src/store/graphStore.ts:40-74 | the new state is `AddNodeTo` of the old |
| GraphStore.Store.UpdateNode | src/store/graphStore.ts:76-80 | the new state is `UpdateNodeIn` of the old |
| GraphStore.Store.AddEdge | src/store/graphStore.ts:82-122 | the two updates leave the state `AddEdgeTo` gives on the old state, with the target placed from the source as read before them |
| GraphStore.Store.AddEventLog | src/store/graphStore.ts:132-134 | the new state is the old with the entry appended to the log |
| GraphStore.Store.SetSelected | src/store/graphStore.ts:136 | only the selection changes |
| GraphStore.Store.SetCamera | src/store/graphStore.ts:138-140 | the new state is the old with the camera patch merged |
| GraphStore.Store.SetConnected | src/store/graphStore.ts:142 | only the connected flag changes |
| GraphStore.Store.Do | src/store/graphStore.ts:40-142 | each action moves the store to `Perform` of the old state |
| GraphStore.AddNodeTo | src/store/graphStore.ts:40-74 | `addNode` on a store value; specified by AddNodeAppends, AddNodePlacement and AddNodeKeepsConsistent |
| GraphStore.UpdateNodeIn | src/store/graphStore.ts:76-80 | `updateNode` on a store value; specified by UpdateNodeMerges and UpdateNodeKeepsConsistent |
| GraphStore.AddEdgeTo | src/store/graphStore.ts:82-122 | `addEdge` on a store value; specified by AddEdgeMissingEnd, AddEdgeCounts, AddEdgeFanOut and AddEdgeKeepsConsistent |
| GraphStore.SetCameraIn | src/store/graphStore.ts:138-140 | `setCamera` on a store value; specified by SetCameraMerges |
| GraphStore.Perform | src/store/graphStore.ts:40-142 | every store action on a store value; specified by PerformGrows, PerformAllGrows and PerformKeepsConsistent |
| GraphStore.AddNodeAppends | src/store/graphStore.ts:40-73 | `addNode` appends exactly one node at the end, with the given id, kind, status, label and content; zero velocity and count; radius and colour from `NODE_CONFIG`; nothing else changes |
| GraphStore.AddNodePlacement | src/store/graphStore.ts:51-58 | with both x and y given the node is placed there, otherwise at (140 × the number of existing nodes, 0) |
| GraphStore.AddEdgeMissingEnd | src/store/graphStore.ts:83-85 | an edge with a missing source or target changes nothing |
| GraphStore.AddEdgeCounts | src/store/graphStore.ts:87-102 | a successful `addEdge` appends one edge with pulse 0, active, and the time; it adds exactly 1 to the count of the nodes with the source id, and changes no node's other fields except a position |
| GraphStore.ConnectCounts | src/store/graphStore.ts:94-121 | the two updates of `addEdge`, on any source record, have that effect on edges and counts |
| GraphStore.AddEdgeFanOut | src/store/graphStore.ts:104-121 | after a successful `addEdge` the target sits at (source.x + 140, source.y + 30·(k − 1)), with k the number of edges now out of the source and the source position read before the update; no other node moves |
| GraphStore.ConnectFanOut | src/store/graphStore.ts:107-121 | the reposition, for any source record |
| GraphStore.UpdateNodeMerges | src/store/graphStore.ts:76-80 | `updateNode` merges the given fields into the nodes with the id, keeps their other fields, leaves every other node, the count and the order, and touches no edge or log entry |
| GraphStore.SetCameraMerges | src/store/graphStore.ts:138-140 | each camera field is the patch's when given, otherwise the old value |
| GraphStore.PerformGrows | src/store/graphStore.ts:40-142 | no store action removes or reorders anything: every old node keeps its place and its id, and the old edges and log are prefixes of the new ones |
| GraphStore.PerformAllGrows | src/store/graphStore.ts:40-142 | the same holds for any sequence of actions |
| GraphStore.InitialConsistent | src/store/graphStore.ts:32-38 | the empty store is consistent: every edge joins existing nodes and every node's count is its number of outgoing edges |
| GraphStore.AddNodeKeepsConsistent | src/store/graphStore.ts:40-73 | adding a node with a new id keeps the store consistent |
| GraphStore.AddEdgeKeepsConsistent | src/store/graphStore.ts:82-122 | `addEdge` keeps the store consistent |
| GraphStore.ConnectKeepsConsistent | src/store/graphStore.ts:94-121 | a successful edge add keeps both halves of consistency |
| GraphStore.ConnectKeepsResolved | src/store/graphStore.ts:95-96 | the stored edges still join existing nodes |
| GraphStore.ConnectCountsExact | src/store/graphStore.ts:97-101 | each count still equals the node's number of outgoing edges |
| GraphStore.UpdateNodeKeepsConsistent | src/store/graphStore.ts:76-80 | an update that does not set the count keeps the store consistent |
| GraphStore.PerformKeepsConsistent | src/store/graphStore.ts:40-142 | every admissible action keeps the store consistent |
| UseSocket.NextDelay | src/hooks/useSocket.ts:48 | doubling with the cap never goes past 30000 and never lowers a delay within [1000, 30000] |
| UseSocket.Dispatch | src/hooks/useSocket.ts:68-128 | the store action a decoded message asks for; specified by ReceiveRoutes |
| UseSocket.Receive | src/hooks/useSocket.ts:57-129 | the store after one frame; specified by ReceiveRoutes, MalformedIgnored, NodeUpdateSetsStatus, ReceiveGrows and ReceiveKeepsConsistent |
| UseSocket.HandleMessage | src/hooks/useSocket.ts:68-129 | the store ends in `Receive` of its old state and the message |
| UseSocket.ReceiveRoutes | src/hooks/useSocket.ts:68-128 | an unknown node type is ignored; a known one appends one node with status defaulting to active, the receive time and the default placement; `node_update` goes to `updateNode`, `edge_add` to `addEdge`, `event_log` to the log; `session_start`, `ping` and unknown types change nothing |
| UseSocket.MalformedIgnored | src/hooks/useSocket.ts:57-64 | a frame that does not parse changes nothing |
| UseSocket.NodeUpdateSetsStatus | src/hooks/useSocket.ts:103-107 | a `node_update` changes only the status of the matching nodes |
| UseSocket.ReceiveGrows | src/hooks/useSocket.ts:68-129 | receiving never removes anything from the store |
| UseSocket.ReceiveKeepsConsistent | src/hooks/useSocket.ts:68-129 | a message that brings no duplicate node id keeps the store consistent |
| UseSocket.Connection.constructor | src/hooks/useSocket.ts:26-27 | mounting starts with delay 1000, mounted, no timer, and a socket |
| UseSocket.Connection.OnOpen | src/hooks/useSocket.ts:37-40 | going online resets the delay to 1000 |
| UseSocket.Connection.OnClose | src/hooks/useSocket.ts:42-51 | going offline drops the socket; a reconnect after the current delay is scheduled exactly when still mounted |
| UseSocket.Connection.OnReconnectTimer | src/hooks/useSocket.ts:47-50 | the timer doubles the delay up to 30000 and opens a socket; the delay stays within [1000, 30000] |
| UseSocket.Connection.OnMessage | src/hooks/useSocket.ts:57-64 | a frame is parsed and routed, and a malformed one is dropped |
| UseSocket.Connection.Unmount | src/hooks/useSocket.ts:134-137 | after unmounting no reconnect is pending, and a later close schedules none |
| UseSocket.DelayClosedForm | src/hooks/useSocket.ts:47-50 | after n reconnects the delay is min(1000·2ⁿ, 30000) |
| UseSocket.DelaySchedule | src/hooks/useSocket.ts:26-50 | the delays run 1000, 2000, 4000, 8000, 16000 and then stay at 30000 |
| Interaction.ScreenToWorld | src/canvas/interaction.ts:7-17 | `screenToWorld`; specified by ScreenWorldRoundTrip |
| Interaction.ScreenWorldRoundTrip | src/canvas/interaction.ts:7-17 | `screenToWorld` and the renderer's transform (screen = canvas/2 + camera + scale·world) are mutually inverse for a non-zero scale |
| Interaction.DrawnLabel | src/canvas/interaction.ts:22-25 | a drawn label of up to 20 characters is unchanged, and a longer one is its first 20 characters followed by "..." |
| Interaction.TopHit | src/canvas/interaction.ts:228-244 | the hit is the last node in order whose squared distance is ≤ (radius + 4)², and none exactly when no node passes that test |
| Interaction.HitTestNodes | src/canvas/interaction.ts:228-244 | the reverse loop returns the node `TopHit` names |
| Interaction.CentreOfTopNodeIsHit | src/canvas/interaction.ts:233-241 | a click on the centre of the topmost node hits that node |
| Interaction.Zoom | src/canvas/interaction.ts:112-133 | the camera after one wheel step; specified by ZoomKeepsPointUnderMouse |
| Interaction.ClampScale | src/canvas/interaction.ts:121 | the zoom is kept within [0.3, 3.0], and a zoom already within that range is unchanged |
| Interaction.ZoomKeepsPointUnderMouse | src/canvas/interaction.ts:112-133 | a wheel step keeps the scale within [0.3, 3.0] and keeps the world point under the mouse fixed |
| Interaction.Pointer.constructor | src/canvas/interaction.ts:106-109 | nothing is being dragged at start |
| Interaction.Pointer.OnWheel | src/canvas/interaction.ts:112-134 | only the camera changes, to the zoom about the mouse |
| Interaction.Pointer.OnMouseDown | src/canvas/interaction.ts:137-144 | a left press starts a drag that has not moved, at the press point; other buttons change nothing |
| Interaction.Pointer.OnMouseMove | src/canvas/interaction.ts:147-178 | while pressed, a move of more than 2 px on some axis marks the drag as moved, and a moved drag pans the camera by the delta and restarts from the point; otherwise hover becomes the node under the mouse |
| Interaction.Pointer.OnMouseUp | src/canvas/interaction.ts:181-199 | a left release that is not a drag selects the node under the mouse, or clears the selection; a left release ends the drag; other buttons change nothing |
| Interaction.Pointer.OnMouseLeave | src/canvas/interaction.ts:202-206 | leaving ends any drag and clears hover |
| NodeColors.LeadingHexDigits | src/canvas/nodes.ts:9 | the base-16 parse reads the longest leading run of hex digits |
| NodeColors.RemoveFirst | src/canvas/nodes.ts:9 | removing '#' drops exactly one character when there is one, and nothing otherwise |
| NodeColors.ChannelsAreBytes | src/canvas/nodes.ts:170-172 | each channel taken from a parsed colour is in [0, 255] |
| NodeColors.Bytes | src/canvas/nodes.ts:170-172 | for the value (r·256 + g)·256 + b, the shifts and masks give back r, g and b |
| NodeColors.HexColorChannels | src/canvas/nodes.ts:168-172 | the channels of a "#rrggbb" colour are its three bytes |
| NodeColors.LightenColor | src/canvas/nodes.ts:8-14 | `lightenColor`; specified by LightenColorReadsBack and LightenBounds |
| NodeColors.LightenBounds | src/canvas/nodes.ts:10-12 | a lightened channel is at most 255; for percent ≥ 0 it is at least the original; percent 0 changes nothing; the ring's 30% adds 77 (the rounding of 255·30/100), capped at 255 |
| NodeColors.RgbReadsBack | src/canvas/nodes.ts:13 | the output is exactly `rgb(r,g,b)`: reading it back gives the three integers |
| NodeColors.LightenColorReadsBack | src/canvas/nodes.ts:8-14 | `lightenColor` prints exactly the three lightened channels of the parsed colour |
| NodeColors.ColorWithAlpha | src/canvas/nodes.ts:168-174 | `colorWithAlpha`; specified by ColorWithAlphaReadsBack |
| NodeColors.RgbaReadsBack | src/canvas/nodes.ts:173 | the output is exactly `rgba(r,g,b,alpha)` |
| NodeColors.ColorWithAlphaReadsBack | src/canvas/nodes.ts:168-174 | for an alpha text without ",", `colorWithAlpha` prints exactly the colour's three channels and the alpha |

## Left out

- I/O and transport are left out, and so is everything Express does beyond the route bodies: the WebSocket server, the health route and static files. Broadcast appends the message to a sequence.
- The browser's WebSocket life cycle is left out. The socket's `connect()` shows only as the `hasSocket` flag. An error closing the socket is not modelled: `onerror` simply calls close.
- Timers are not modelled as time. A pending reconnect is the delay it was scheduled with, and `OnReconnectTimer` is its firing.
- Asynchronous interleaving is left out. Each request, file event and socket message runs to completion on its own.
- The physics, the particles, the glow and fade animation and the canvas drawing are left out, because they are floating point, random or drawing. So are `updateAnimations`, `addParticles`, `setParticles` and the particle burst after `node_add`.
- The canvas cursor style and the `onUserInteraction` callback are left out. So are the listener attach/detach code and `window.devicePixelRatio`: the view's width and height are the CSS size.
- Numbers are exact: positions, camera values and colour percentages are `real`, and counts are unbounded integers. Float rounding is not modelled.
- Text.Take: the cut counts Unicode code points, while JavaScript's `slice` counts UTF-16 code units. The two agree unless the string holds characters outside the Basic Multilingual Plane, such as emoji. For those, the source keeps fewer characters and may split a surrogate pair. The same holds for the 500- and 200-character cuts of `FormatWrite` and `FormatEdit`.
- Text.Truncate: the bound counts code points, not the UTF-16 code units that `str.length` counts. A content of 1500 emoji is 3000 code units, so the source cuts it at 2000 units, but the model keeps it whole. This applies to the 2000 and 40 limits of `HookTruncation` and to `AssistantThought` and `UserPromptText`.
- Interaction.DrawnLabel: the 20-character limit counts code points, not the UTF-16 code units of `text.length`.
- Types.ConfigByName: `NODE_CONFIG[data.type]` is a plain object read. It is also truthy for names inherited from `Object.prototype`, such as "constructor", "toString" or "__proto__". The model has only the six own entries, so for it such a name has no entry.
- UseSocket.Dispatch: for a `node_add` whose type is an inherited name, the source calls `addNode` with that type, and the node gets no radius or colour. The model ignores the message, because a node's kind is one of the six kinds.
- UseSocket.ReceiveRoutes: "an unknown node type is ignored" holds for every name except the inherited ones above. The source adds a node for those.
- UseSocket.HandleMessage: the same inherited-name `node_add` that the source adds is one that the model drops.
- NodeColors.LeadingHexDigits: the base-16 parse skips neither leading whitespace, nor a sign, nor a "0x" prefix, and loses no precision above 2^53. The colours the program passes are "#rrggbb" strings, where none of this arises.
- NodeColors.ColorWithAlphaReadsBack: the alpha is taken as the text that `String(alpha)` gives for it; number-to-text conversion of non-integers is not modelled.
- Text.IntToDecimal: `String(n)` is modelled for integers only. Exponent notation, which starts at magnitude 10^21, is not modelled.
- Request members that the source treats as strings are read as strings only. When such a member holds another JSON value, the source behaves differently from the model:
  - A truthy non-string `session_id` of a hook keys the tracker by that value itself. The model keys every such hook under "unknown".
  - A non-string `tool_name` of a hook, or `name` of a tool-use segment, appears in the label and as the event's `toolName`. The model reads it as absent, so the label falls back to "Unknown Tool" or "Tool".
  - A truthy non-string `description` or `prompt` of a `Task` input becomes the agent's title, so `{"description": 5}` gives "Agent: 5". The model skips it, falling back to `prompt` and then "Subagent".
  - A truthy `error`, or a non-null `tool_result` or `stop_reason`, that is neither a string nor an array reaches the final truncation, whose `slice` call throws. Express then answers 500 and nothing is broadcast. The session's record has already been created by then, and a `Stop` has already cleared `currentAgentId`. An array value of at most 2000 elements is passed through unchanged as the event's content, and a longer one is cut to 2000 elements and rendered as comma-separated text followed by "...". The model reads all of these values as absent instead.
  - A non-string `text` of a text segment is not among these. It is rendered as `join` renders it, as the source does.
- HookHandler.HookRejections: its "200 exactly when none of these holds" is stated for the model's reading of string members above. In the source, a hook whose `error`, `tool_result` or `stop_reason` makes the truncation throw is answered 500.
- HookHandler.AcceptedRoute: the same exception applies. In the source, such an authorized, well-typed hook is answered 500 with nothing broadcast.
- HookHandler.HandleHook: the same exception applies through `HookRoute`.
- The bridge's `sessionId` keys the tracker by its `String(v)` rendering. The log lines use the file name.
- A non-string log timestamp, and a string timestamp that `new Date` cannot read, are passed to the host clock function like any other value.
- A session-log value `null` where a message or a content segment is expected makes the source throw. The model stops with that outcome: the watcher gives up on the rest of the file's new lines, and the bridge answers 500.
- A JSON array as a hook body passes the object check. It is modelled as an object whose only member is the defaulted `session_id`.
- The bridge's `connectFromId` has no `parentNodeId` to use, because that field is not part of an event. The bridge edge always comes from the previous node.
- The server keeps one edge-colour table per ingestion file, with identical contents. It is modelled once, as `Server.NodeColor`. Its `'#00d4ff'` fallback cannot be reached, because every event's type is a kind.
- The per-message loop of the bridge and of the log tail is the same code. It is modelled once, in `Ingest`.
- `path.basename` is modelled for paths that do not end in "/".
- The store's update patch covers the fields the socket and the canvas send. A patch that rewrites a node's id or kind is not modelled, because no message sends one.
- `ScreenToWorld`, `Zoom` and the pointer handlers that hit-test require a non-zero camera scale. The store starts at scale 1, the wheel keeps the scale within [0.3, 3.0], and dragging leaves it alone.
- Interaction.Pointer.OnMouseMove: the hovered node is stored on the pointer, in place of the source's `setHovered` callback.
