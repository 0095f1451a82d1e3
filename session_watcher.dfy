/**
 * The log watcher: it starts unless the deploy mode is remote, and on each
 * change of a `.jsonl` file processes only the text past the offset it
 * recorded for that file, one line at a time, through the same per-message
 * step as the bridge.
 */
module SessionWatcher {
  import opened Wrappers
  import opened JsValue
  import opened Types
  import opened EventParser
  import opened Server
  import opened Ingest
  import Text

  /** `startWatcher` returns at once in remote mode and starts watching otherwise. */
  predicate WatcherStarts(env: Env) {
    DeployMode(env) != "remote"
  }

  lemma WatcherGate(env: Env)
    ensures WatcherStarts(env) <==> env.deployMode != Some("remote")
    ensures env.deployMode.None? ==> WatcherStarts(env)
  {
  }

  // ----- file names -----

  /** The text after the last "/". */
  function LastSegment(p: string): (r: string)
    ensures '/' !in r && |r| <= |p| && p[|p| - |r|..] == r
    ensures |r| < |p| ==> p[|p| - |r| - 1] == '/'
  {
    if |p| == 0 || p[|p| - 1] == '/' then ""
    else
      var r := LastSegment(p[..|p| - 1]);
      assert p[..|p| - 1][|p| - 1 - |r|..] == r;
      r + [p[|p| - 1]]
  }

  /** `path.basename(p, ext)` on a path that does not end in "/": the last segment, less `ext` when it ends with it and is longer. */
  function Basename(p: string, ext: string): string {
    if p == ext then ""
    else
      var base := LastSegment(p);
      if |ext| > 0 && |base| > |ext| && base[|base| - |ext|..] == ext then base[..|base| - |ext|] else base
  }

  lemma {:induction false} LastSegmentAfterSlash(dir: string, name: string)
    requires '/' !in name
    ensures LastSegment(dir + "/" + name) == name
  {
    if |name| > 0 {
      var p := dir + "/" + name;
      assert p[..|p| - 1] == dir + "/" + name[..|name| - 1];
      LastSegmentAfterSlash(dir, name[..|name| - 1]);
      assert name == name[..|name| - 1] + [name[|name| - 1]];
    } else {
      assert (dir + "/" + name)[|dir + "/" + name| - 1] == '/';
    }
  }

  /** A log file `dir/name.jsonl` is the session `name`. */
  lemma SessionIdOfLogFile(dir: string, name: string)
    requires name != "" && '/' !in name
    ensures Basename(dir + "/" + name + ".jsonl", ".jsonl") == name
  {
    var file := name + ".jsonl";
    assert '/' !in file by {
      assert forall k :: 0 <= k < |file| ==> file[k] == if k < |name| then name[k] else ".jsonl"[k - |name|];
    }
    assert dir + "/" + name + ".jsonl" == dir + "/" + file;
    LastSegmentAfterSlash(dir, file);
    assert file[..|file| - 6] == name;
  }

  // ----- lines -----

  /** The lines whose trim is not empty, in order. */
  function NonBlankLines(lines: seq<string>): (kept: seq<string>)
    ensures |kept| <= |lines|
    ensures forall k :: 0 <= k < |kept| ==> Text.Trim(kept[k]) != "" && kept[k] in lines
  {
    if |lines| == 0 then []
    else
      var rest := NonBlankLines(lines[1..]);
      if Text.Trim(lines[0]) != "" then [lines[0]] + rest else rest
  }

  /** Every line whose trim is not empty is kept. */
  lemma {:induction false} NonBlankLinesKeep(lines: seq<string>)
    ensures forall k :: 0 <= k < |lines| && Text.Trim(lines[k]) != "" ==> lines[k] in NonBlankLines(lines)
  {
    if |lines| > 0 {
      NonBlankLinesKeep(lines[1..]);
      assert forall k :: 1 <= k < |lines| ==> lines[k] == lines[1..][k - 1];
    }
  }

  /** The lines of new text processed: no newline inside, none blank, and none but blank lines left out. */
  lemma LinesOfText(lines: seq<string>)
    requires forall k :: 0 <= k < |lines| ==> '\n' !in lines[k]
    ensures var kept := NonBlankLines(lines);
            && (forall k :: 0 <= k < |kept| ==> '\n' !in kept[k] && !Text.Blank(kept[k]))
            && (forall k :: 0 <= k < |lines| && !Text.Blank(lines[k]) ==> lines[k] in kept)
  {
    var kept := NonBlankLines(lines);
    forall k | 0 <= k < |kept| ensures '\n' !in kept[k] && !Text.Blank(kept[k]) {
      Text.TrimEmptyIffBlank(kept[k]);
      var j :| 0 <= j < |lines| && lines[j] == kept[k];
    }
    NonBlankLinesKeep(lines);
    forall k | 0 <= k < |lines| && !Text.Blank(lines[k]) ensures lines[k] in kept {
      Text.TrimEmptyIffBlank(lines[k]);
    }
  }

  // ----- processing a file -----

  /** `content.slice(currentPos)`. */
  function Tail(content: string, pos: nat): string {
    if pos >= |content| then "" else content[pos..]
  }

  /** The items of a batch of new text: its non-blank lines, each through `JSON.parse` (`None` where it throws). */
  function LineItems(newContent: string, parse: string -> Option<Json>): seq<Option<Json>> {
    var lines := NonBlankLines(Text.Split(newContent, '\n'));
    seq(|lines|, j requires 0 <= j < |lines| => parse(lines[j]))
  }

  datatype FileOutcome = FileOutcome(positions: map<string, nat>, run: Run)

  /**
   * `processFile` on the offsets `positions` and the tracker `sessions`,
   * where `read` is what `readFile` gave (`None` when it failed) and
   * `ids(i)` the fresh values drawn for line `i`.
   */
  function FileRun(path: string, read: Option<string>, positions: map<string, nat>, sessions: map<string, SessionState>,
                   parse: string -> Option<Json>, ids: nat -> Fresh, host: Host): FileOutcome
  {
    match read
    case None => FileOutcome(positions, Run(sessions, [], 0, [], false))
    case Some(content) =>
      var pos := if path in positions then positions[path] else 0;
      var newContent := Tail(content, pos);
      var after := positions[path := |content|];
      if Text.Trim(newContent) == "" then FileOutcome(after, Run(sessions, [], 0, [], false))
      else FileOutcome(after, IngestRun(LineItems(newContent, parse), Basename(path, ".jsonl"), sessions, ids, Watcher, host))
  }

  /** The offsets kept per file (`filePositions`). */
  class Watcher {
    var filePositions: map<string, nat>

    constructor()
      ensures filePositions == map[]
    {
      filePositions := map[];
    }

    method ProcessFile(path: string, read: Option<string>, parse: string -> Option<Json>,
                       tracker: SessionTracker, channel: Channel, ids: nat -> Fresh, host: Host)
      modifies this, tracker, channel
      ensures var o := FileRun(path, read, old(filePositions), old(tracker.sessions), parse, ids, host);
              && filePositions == o.positions && tracker.sessions == o.run.sessions
              && channel.sent == old(channel.sent) + o.run.messages
    {
      if read.None? {
        return;
      }
      var content := read.value;
      var currentPos := if path in filePositions then filePositions[path] else 0;
      var newContent := Tail(content, currentPos);
      filePositions := filePositions[path := |content|];
      if Text.Trim(newContent) == "" {
        return;
      }
      var sessionId := Basename(path, ".jsonl");
      var _, _ := IngestBatch(tracker, channel, LineItems(newContent, parse), sessionId, ids, Watcher, host);
    }
  }

  // ----- properties -----

  /** After a successful read the file's offset is the length of its content; a failed read changes nothing. */
  lemma OffsetAdvances(path: string, read: Option<string>, positions: map<string, nat>, sessions: map<string, SessionState>,
                       parse: string -> Option<Json>, ids: nat -> Fresh, host: Host)
    ensures var o := FileRun(path, read, positions, sessions, parse, ids, host);
            && (read.Some? ==> o.positions == positions[path := |read.value|])
            && (read.None? ==> o == FileOutcome(positions, Run(sessions, [], 0, [], false)))
  {
  }

  /** Text appended past the recorded offset is exactly what is processed. */
  lemma OnlyNewText(earlier: string, added: string, pos: nat)
    requires pos == |earlier|
    ensures Tail(earlier + added, pos) == added
  {
  }

  /** New text that is only whitespace broadcasts nothing and leaves every session as it was. */
  lemma BlankTextIgnored(path: string, content: string, positions: map<string, nat>, sessions: map<string, SessionState>,
                         parse: string -> Option<Json>, ids: nat -> Fresh, host: Host)
    requires Text.Blank(Tail(content, if path in positions then positions[path] else 0))
    ensures var o := FileRun(path, Some(content), positions, sessions, parse, ids, host);
            o.run.messages == [] && o.run.sessions == sessions
  {
    Text.TrimEmptyIffBlank(Tail(content, if path in positions then positions[path] else 0));
  }

  /** Once the offset is at the end of the content, processing it again broadcasts nothing. */
  lemma QuietAtEnd(path: string, content: string, positions: map<string, nat>, sessions: map<string, SessionState>,
                   parse: string -> Option<Json>, ids: nat -> Fresh, host: Host)
    requires path in positions && positions[path] == |content|
    ensures var o := FileRun(path, Some(content), positions, sessions, parse, ids, host);
            o.run.messages == [] && o.run.sessions == sessions && o.positions == positions
  {
    assert Tail(content, |content|) == "";
    assert Text.Trim("") == "";
    assert positions[path := |content|] == positions;
  }

  /** Processing an unchanged file again broadcasts nothing. */
  lemma ReprocessingIsQuiet(path: string, content: string, positions: map<string, nat>, sessions: map<string, SessionState>,
                            parse: string -> Option<Json>, ids: nat -> Fresh, host: Host,
                            sessions2: map<string, SessionState>, ids2: nat -> Fresh)
    ensures var o := FileRun(path, Some(content), positions, sessions, parse, ids, host);
            var o2 := FileRun(path, Some(content), o.positions, sessions2, parse, ids2, host);
            o2.run.messages == [] && o2.run.sessions == sessions2 && o2.positions == o.positions
  {
    OffsetAdvances(path, Some(content), positions, sessions, parse, ids, host);
    QuietAtEnd(path, content, positions[path := |content|], sessions2, parse, ids2, host);
  }

  /**
   * The lines of one batch: every event is the watcher's and in the file's
   * session, every `node_add` is active, and the `edge_add`s chain the
   * session's previous node through the batch's events in line order.
   */
  lemma WatcherBatch(path: string, content: string, positions: map<string, nat>, sessions: map<string, SessionState>,
                     parse: string -> Option<Json>, ids: nat -> Fresh, host: Host)
    requires forall i: nat :: ids(i).eventId != ""
    ensures var o := FileRun(path, Some(content), positions, sessions, parse, ids, host);
            var sessionId := Basename(path, ".jsonl");
            && CountNodeAdds(o.run.messages) == |o.run.events|
            && (forall k :: 0 <= k < |o.run.events| ==> o.run.events[k].source == Watcher && o.run.events[k].sessionId == sessionId)
            && (forall m :: m in o.run.messages && m.NodeAdd? ==> m.status == Some(Active))
            && EdgePairs(o.run.messages) == ChainPairs(Lookup(sessions, sessionId).lastNodeId, EventIds(o.run.events))
  {
    var pos := if path in positions then positions[path] else 0;
    var newContent := Tail(content, pos);
    if Text.Trim(newContent) != "" {
      RunShape(LineItems(newContent, parse), Basename(path, ".jsonl"), sessions, ids, Watcher, host);
    }
  }

  /** A line `JSON.parse` rejects is skipped and the lines after it are still processed. */
  lemma MalformedLineSkipped(r: Run, ids: Fresh, sessionId: string, host: Host)
    ensures Step(r, None, ids, sessionId, Watcher, host) == r
  {
  }
}
