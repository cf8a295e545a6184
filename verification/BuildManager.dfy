// The manager as an object: a map of builds whose fields the goroutines change
// in place. Each method is one region that runs without interruption.
module BuildManager {
  import opened Common
  import opened BuildModel
  import opened RingBuffer

  class RunningBuild {
    const templateId: string
    const buildId: BuildId
    const resultTag: string
    const startedAt: Time
    const logs: Ring<LogEntry>
    var status: Status
    var reason: string
    var finishedAt: Option<Time>
    var done: bool
    var cancelled: bool

    ghost predicate Valid()
      reads this, logs, logs.slots
    {
      logs.Valid()
    }

    ghost function View(): Build
      reads this, logs
    {
      Build(templateId, buildId, resultTag, startedAt, status, reason, finishedAt, logs.log, done, cancelled)
    }

    constructor (req: BuildRequest, now: Time, logCapacity: int)
      ensures Valid() && fresh(logs) && fresh(logs.slots) && View() == NewBuild(req, now)
      ensures status == Waiting && reason == "" && finishedAt == None && !done && !cancelled && logs.log == []
      ensures templateId == req.templateId && buildId == req.buildId && startedAt == now
      ensures resultTag == "edvabe/user-" + req.templateId + ":latest"
      ensures logs.capacity == if logCapacity <= 0 then LOG_CAPACITY else logCapacity
    {
      templateId, buildId, resultTag, startedAt := req.templateId, req.buildId, ResultTag(req.templateId), now;
      status, reason, finishedAt, done, cancelled := Waiting, "", None, false, false;
      logs := new Ring<LogEntry>(logCapacity);
    }

    // The executor's side: fill in what the line leaves out and store it.
    method SinkAppend(entry: LogEntry, now: Time)
      requires Valid()
      modifies logs, logs.slots
      ensures Valid() && View() == WithLine(old(View()), Stamped(entry, now))
      ensures |logs.log| == |old(logs.log)| + 1 && old(logs.log) <= logs.log
      ensures var line := logs.log[|old(logs.log)|];
        && line.message == entry.message && line.source == entry.source
        && line.timestamp == (if entry.timestamp == 0 then now else entry.timestamp)
        && line.level == (if entry.level == "" then "info" else entry.level)
    {
      var line := entry;
      if line.timestamp == ZERO_TIME { line := line.(timestamp := now); }
      if line.level == "" { line := line.(level := "info"); }
      var _ := logs.Append(line);
    }

    method SetStatus(newStatus: Status, newReason: string)
      requires Valid()
      modifies this`status, this`reason
      ensures Valid() && View() == WithStatus(old(View()), newStatus, newReason)
    {
      status, reason := newStatus, newReason;
    }

    method LogStart(now: Time)
      requires Valid()
      modifies logs, logs.slots
      ensures Valid() && View() == WithLine(old(View()), StartLine(old(View()), now))
      ensures logs.log
        == old(logs.log) + [LogEntry(now, "info", "", "Starting build for template " + templateId)]
    {
      var _ := logs.Append(LogEntry(now, "info", "", "Starting build for template " + templateId));
    }

    // The goroutine's last region, under the manager's lock.
    method Finish(v: Verdict) returns (result: BuildResult)
      requires Valid()
      modifies this`status, this`reason, this`finishedAt, logs, logs.slots
      ensures Valid()
      ensures View() == WithLine(WithVerdict(old(View()), v), EndLine(old(View()), v))
      ensures result == ResultOf(old(View()), v)
      ensures v.error.None? ==>
        status == Ready && reason == old(reason) && result.status == Ready && result.reason == ""
      ensures v.error.Some? ==>
        status == Failed && reason == v.error.value && result.status == Failed && result.reason == v.error.value
      ensures finishedAt == Some(v.now) && result.templateId == templateId && result.buildId == buildId
      ensures |logs.log| == |old(logs.log)| + 1 && old(logs.log) <= logs.log
      ensures TellsTheEnd(logs.log[|old(logs.log)|], resultTag, v)
    {
      finishedAt := Some(v.now);
      if v.error.Some? {
        status, reason := Failed, v.error.value;
        var _ := logs.Append(LogEntry(v.now, "error", "", "Build failed: " + v.error.value));
        return BuildResult(templateId, buildId, Failed, v.error.value);
      }
      status := Ready;
      var _ := logs.Append(LogEntry(v.now, "info", "", "Build complete: " + resultTag));
      result := BuildResult(templateId, buildId, Ready, "");
    }

    method Close()
      requires Valid()
      modifies this`done
      ensures Valid() && View() == old(View()).(done := true)
    {
      done := true;
    }

    // The whole goroutine, when nothing else looks in between: the executor
    // hands over `output` and ends with v.
    method Run(output: seq<LogEntry>, now: Time, v: Verdict) returns (result: BuildResult)
      requires Valid()
      modifies this`status, this`reason, this`finishedAt, this`done, logs, logs.slots
      ensures Valid() && result == ResultOf(old(View()), v)
      ensures View() == RunToEnd(old(View()), output, now, v)
      ensures v.error.None? ==>
        status == Ready && reason == "" && result.status == Ready && result.reason == ""
      ensures v.error.Some? ==>
        status == Failed && reason == v.error.value && result.status == Failed && result.reason == v.error.value
      ensures finishedAt == Some(v.now) && result.templateId == templateId && result.buildId == buildId && done
      ensures RunLog(old(logs.log), logs.log, old(View()), output, now, v)
    {
      ghost var start := View();
      SetStatus(Building, "");
      LogStart(now);
      assert View() == Begun(old(View()), now);
      for i := 0 to |output|
        invariant Valid() && View() == WithLines(Begun(old(View()), now), output[..i], now)
      {
        assert output[..i + 1][..i] == output[..i];
        SinkAppend(output[i], now);
      }
      assert output[..|output|] == output;
      result := Finish(v);
      Close();
      RunToEndLog(start, output, now, v);
    }
  }

  ghost function ViewOf(builds: map<BuildId, RunningBuild>): map<BuildId, Build>
    reads set id | id in builds :: builds[id], set id | id in builds :: builds[id].logs
  {
    map id | id in builds :: builds[id].View()
  }

  ghost predicate Sound(id: BuildId, rb: RunningBuild, capacity: nat)
    reads rb, rb.logs, rb.logs.slots
  {
    rb.Valid() && rb.buildId == id && rb.logs.capacity == capacity
  }

  lemma OneMoreBuild(builds: map<BuildId, RunningBuild>, rb: RunningBuild)
    ensures ViewOf(builds[rb.buildId := rb]) == ViewOf(builds)[rb.buildId := rb.View()]
  {
    assert ViewOf(builds[rb.buildId := rb]).Keys == ViewOf(builds).Keys + {rb.buildId};
  }

  // A build as it is registered.
  ghost predicate WaitsFor(b: Build, req: BuildRequest, now: Time) {
    && b.templateId == req.templateId && b.buildId == req.buildId && b.startedAt == now
    && b.resultTag == "edvabe/user-" + req.templateId + ":latest"
    && b.status == Waiting && b.reason == "" && b.finishedAt == None && b.log == [] && !b.done && !b.cancelled
  }

  datatype Waited = UnknownBuild | Finished | ContextDone | Blocks

  class Manager {
    const logCapacity: int
    var builds: map<BuildId, RunningBuild>

    ghost predicate Valid()
      reads this, set id | id in builds :: builds[id],
            set id | id in builds :: builds[id].logs,
            set id | id in builds :: builds[id].logs.slots
    {
      forall id | id in builds :: Sound(id, builds[id], Capacity())
    }

    function Capacity(): nat {
      if logCapacity <= 0 then LOG_CAPACITY else logCapacity
    }

    ghost function View(): map<BuildId, Build>
      reads this, set id | id in builds :: builds[id], set id | id in builds :: builds[id].logs
    {
      ViewOf(builds)
    }

    constructor (capacity: int)
      ensures Valid() && View() == map[] && logCapacity == capacity
    {
      logCapacity := capacity;
      builds := map[];
    }

    // False is the "already exists" error, which changes nothing.
    method Enqueue(req: BuildRequest, now: Time) returns (ok: bool)
      requires Valid()
      modifies this`builds
      ensures Valid()
      ensures ok == (req.buildId !in old(builds))
      ensures ok ==> View() == old(View())[req.buildId := NewBuild(req, now)]
      ensures ok ==> WaitsFor(View()[req.buildId], req, now)
      ensures !ok ==> View() == old(View())
    {
      if req.buildId in builds { return false; }
      var rb := new RunningBuild(req, now, logCapacity);
      assert ViewOf(builds) == old(ViewOf(builds));
      OneMoreBuild(builds, rb);
      builds := builds[req.buildId := rb];
      ok := true;
    }

    method GetStatus(id: BuildId) returns (r: Option<Build>)
      requires Valid()
      ensures r.Some? <==> id in View()
      ensures r.Some? ==> r.value == View()[id].(log := [], done := false, cancelled := false)
    {
      if id !in builds { return None; }
      var rb := builds[id];
      return Some(Build(rb.templateId, rb.buildId, rb.resultTag, rb.startedAt,
                        rb.status, rb.reason, rb.finishedAt, [], false, false));
    }

    method Logs(id: BuildId, offset: int, limit: int) returns (r: Option<Page<LogEntry>>)
      requires Valid()
      ensures r.Some? <==> id in View()
      ensures r.Some? ==> r.value == ReadLog(View()[id].log, Capacity(), offset, limit)
    {
      if id !in builds { return None; }
      assert Sound(id, builds[id], Capacity());
      var entries, next := builds[id].logs.Read(offset, limit);
      return Some(Page(entries, next));
    }

    // What a Wait comes to with the build and its context as they now are: with
    // neither done it blocks, with both done either may be noticed first.
    method Wait(id: BuildId, contextDone: bool) returns (r: Waited)
      requires Valid()
      ensures r.UnknownBuild? <==> id !in View()
      ensures r.Finished? ==> View()[id].done
      ensures r.ContextDone? ==> contextDone
      ensures r.Blocks? <==> id in View() && !View()[id].done && !contextDone
    {
      if id !in builds { return UnknownBuild; }
      if builds[id].done && contextDone {
        if * { return Finished; } else { return ContextDone; }
      }
      r := if builds[id].done then Finished else if contextDone then ContextDone else Blocks;
    }

    method Cancel(id: BuildId) returns (ok: bool)
      requires Valid()
      modifies set i | i in builds :: builds[i]`cancelled
      ensures Valid() && builds == old(builds) && ok == (id in builds)
      ensures View() == if ok then old(View())[id := old(View())[id].(cancelled := true)] else old(View())
    {
      if id !in builds { return false; }
      builds[id].cancelled := true;
      ok := true;
    }
  }
}
