// Template builds: what one build carries, and each region its goroutine runs
// in one piece (under the manager's lock or the log's own lock).
module BuildModel {
  import opened Common

  type BuildId = string
  type Time = int

  const ZERO_TIME: Time := 0
  const LOG_CAPACITY := 5000

  datatype Status = Waiting | Building | Ready | Failed

  datatype LogEntry = LogEntry(timestamp: Time, level: string, source: string, message: string)

  datatype BuildRequest = BuildRequest(templateId: string, buildId: BuildId)

  datatype BuildResult = BuildResult(templateId: string, buildId: BuildId, status: Status, reason: string)

  // How the executor ended, and when that was noticed.
  datatype Verdict = Verdict(error: Option<string>, now: Time)

  // Where the build's goroutine stands. The three points from Marked on hold
  // the manager's lock: between them the status is final but the last line, or
  // the callback, is still to come.
  datatype Pc =
    | Spawned                 // registered, goroutine not yet scheduled
    | Started                 // status "building", start line not yet written
    | Executing
    | Returned(v: Verdict)    // executor is back, lock not yet taken
    | Marked(v: Verdict)      // status and finish time set
    | Logged(v: Verdict)      // last line written
    | Notified(v: Verdict)    // callback made
    | Released(v: Verdict)    // lock given up
    | Closed(v: Verdict)      // done channel closed

  datatype Build = Build(
    templateId: string, buildId: BuildId, resultTag: string, startedAt: Time,
    status: Status, reason: string, finishedAt: Option<Time>,
    log: seq<LogEntry>, done: bool, cancelled: bool)

  function ResultTag(templateId: string): string { "edvabe/user-" + templateId + ":latest" }

  predicate Terminal(s: Status) { s.Ready? || s.Failed? }

  function FinalStatus(v: Verdict): Status { if v.error.Some? then Failed else Ready }

  function FinalReason(v: Verdict): string { if v.error.Some? then v.error.value else "" }

  function NewBuild(req: BuildRequest, now: Time): Build {
    Build(req.templateId, req.buildId, ResultTag(req.templateId), now, Waiting, "", None, [], false, false)
  }

  function StartLine(b: Build, now: Time): LogEntry {
    LogEntry(now, "info", "", "Starting build for template " + b.templateId)
  }

  function EndLine(b: Build, v: Verdict): LogEntry {
    match v.error
    case Some(e) => LogEntry(v.now, "error", "", "Build failed: " + e)
    case None => LogEntry(v.now, "info", "", "Build complete: " + b.resultTag)
  }

  // What the sink stores for a line the executor hands it.
  function Stamped(e: LogEntry, now: Time): LogEntry {
    LogEntry(if e.timestamp == ZERO_TIME then now else e.timestamp,
             if e.level == "" then "info" else e.level, e.source, e.message)
  }

  function WithStatus(b: Build, status: Status, reason: string): Build {
    b.(status := status, reason := reason)
  }

  function WithLine(b: Build, e: LogEntry): Build { b.(log := b.log + [e]) }

  function WithVerdict(b: Build, v: Verdict): Build {
    b.(status := FinalStatus(v), reason := if v.error.Some? then v.error.value else b.reason,
       finishedAt := Some(v.now))
  }

  function ResultOf(b: Build, v: Verdict): BuildResult {
    BuildResult(b.templateId, b.buildId, FinalStatus(v), FinalReason(v))
  }

  function Begun(b: Build, now: Time): Build {
    WithLine(WithStatus(b, Building, ""), StartLine(b, now))
  }

  function WithLines(b: Build, lines: seq<LogEntry>, now: Time): Build {
    if lines == [] then b
    else WithLine(WithLines(b, lines[..|lines| - 1], now), Stamped(lines[|lines| - 1], now))
  }

  function RunToEnd(b: Build, output: seq<LogEntry>, now: Time, v: Verdict): Build {
    var ran := WithLines(Begun(b, now), output, now);
    WithLine(WithVerdict(ran, v), EndLine(ran, v)).(done := true)
  }

  // What an uninterrupted run leaves behind.
  lemma {:induction false} WithLinesAppends(b: Build, lines: seq<LogEntry>, now: Time)
    ensures WithLines(b, lines, now) == b.(log := b.log + seq(|lines|,
        i requires 0 <= i < |lines| => Stamped(lines[i], now)))
  {
    if lines != [] {
      var front := lines[..|lines| - 1];
      WithLinesAppends(b, front, now);
      var stamped := seq(|lines|, i requires 0 <= i < |lines| => Stamped(lines[i], now));
      assert stamped == seq(|front|, i requires 0 <= i < |front| => Stamped(front[i],
          now)) + [Stamped(lines[|lines| - 1], now)];
      assert b.log + stamped == (b.log + stamped[..|front|]) + [stamped[|front|]];
    }
  }

  // The line stored for an entry the executor hands over: its own message and
  // source, and the time and level it gives, or else the current time and info.
  ghost predicate Took(entry: LogEntry, now: Time, line: LogEntry) {
    && line.message == entry.message && line.source == entry.source
    && line.timestamp == (if entry.timestamp == 0 then now else entry.timestamp)
    && line.level == (if entry.level == "" then "info" else entry.level)
  }

  ghost predicate TookEach(entries: seq<LogEntry>, now: Time, lines: seq<LogEntry>) {
    |lines| == |entries| && forall i | 0 <= i < |entries| :: Took(entries[i], now, lines[i])
  }

  // The last line of a build tells how it ended.
  ghost predicate TellsTheEnd(line: LogEntry, resultTag: string, v: Verdict) {
    && line.timestamp == v.now && line.source == ""
    && (v.error.None? ==> line.level == "info" && line.message == "Build complete: " + resultTag)
    && (v.error.Some? ==> line.level == "error" && line.message == "Build failed: " + v.error.value)
  }

  // The log of an uninterrupted run: a start line, one line for each entry of
  // the output, and the line that tells the end.
  ghost predicate RunLog(before: seq<LogEntry>, log: seq<LogEntry>, b: Build, output: seq<LogEntry>, now: Time,
                         v: Verdict)
  {
    && |log| == |before| + |output| + 2 && before <= log
    && log[|before|] == LogEntry(now, "info", "", "Starting build for template " + b.templateId)
    && TookEach(output, now, log[|before| + 1..|before| + 1 + |output|])
    && TellsTheEnd(log[|log| - 1], b.resultTag, v)
  }

  lemma RunToEndLog(b: Build, output: seq<LogEntry>, now: Time, v: Verdict)
    ensures RunLog(b.log, RunToEnd(b, output, now, v).log, b, output, now, v)
    ensures v.error.None? ==> RunToEnd(b, output, now, v).reason == ""
  {
    var begun := Begun(b, now);
    WithLinesAppends(begun, output, now);
    var lines := seq(|output|, i requires 0 <= i < |output| => Stamped(output[i], now));
    var log := RunToEnd(b, output, now, v).log;
    assert log == b.log + [StartLine(b, now)] + lines + [EndLine(b, v)];
    assert log[|b.log| + 1..|b.log| + 1 + |output|] == lines;
  }
}
