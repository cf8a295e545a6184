// Builds, their goroutines and the clients that poll them, interleaved in every
// possible way. One step is one region that runs without interruption. The
// last region of a goroutine is cut in four, since a log read does not take the
// manager's lock and may fall in the middle of it.
module BuildProtocol {
  import opened Common
  import opened BuildModel
  import opened RingBuffer

  type ClientId = nat

  // A build with its goroutine. `begun` and `lines` record when the start line
  // was written and what the sink stored since.
  datatype Job = Job(build: Build, pc: Pc, begun: Time, lines: seq<LogEntry>)

  // A client asks for the status, then reads the log at the offset it has
  // reached, and stops once the status it was told is final. `at` holds the
  // position of each received line; keptUp says no read found the client more
  // than the capacity behind; cut says the last read was shortened by its limit.
  datatype Client = Client(
    target: BuildId, told: Option<Status>, got: seq<LogEntry>, at: seq<nat>,
    keptUp: bool, cut: bool, stopped: bool)

  datatype St = St(
    capacity: nat, jobs: map<BuildId, Job>, lock: Option<BuildId>,
    results: seq<BuildResult>, clients: map<ClientId, Client>)

  datatype Step =
    | Begin | WriteStart(now: Time) | Emit(entry: LogEntry, now: Time) | Return(v: Verdict)
    | Mark | WriteEnd | Notify | Release | Close

  datatype Label =
    | Enqueue(req: BuildRequest, now: Time)
    | Work(id: BuildId, step: Step)
    | Cancel(id: BuildId)
    | Join(c: ClientId, id: BuildId)
    | AskStatus(c: ClientId)
    | ReadLogs(c: ClientId, limit: int)

  // -------------------------------------------------------------- the machine

  predicate CanStep(pc: Pc, step: Step, lockFree: bool) {
    match step
    case Begin => pc.Spawned? && lockFree
    case WriteStart(_) => pc.Started?
    case Emit(_, _) => pc.Executing?
    case Return(_) => pc.Executing?
    case Mark => pc.Returned? && lockFree
    case WriteEnd => pc.Marked?
    case Notify => pc.Logged?
    case Release => pc.Notified?
    case Close => pc.Released?
  }

  function StepJob(j: Job, step: Step): Job
    requires CanStep(j.pc, step, true)
  {
    match step
    case Begin => j.(pc := Started, build := WithStatus(j.build, Building, ""))
    case WriteStart(now) =>
      j.(pc := Executing, begun := now, build := WithLine(j.build, StartLine(j.build, now)))
    case Emit(entry, now) =>
      j.(lines := j.lines + [Stamped(entry, now)], build := WithLine(j.build, Stamped(entry, now)))
    case Return(v) => j.(pc := Returned(v))
    case Mark => j.(pc := Marked(j.pc.v), build := WithVerdict(j.build, j.pc.v))
    case WriteEnd => j.(pc := Logged(j.pc.v), build := WithLine(j.build, EndLine(j.build, j.pc.v)))
    case Notify => j.(pc := Notified(j.pc.v))
    case Release => j.(pc := Released(j.pc.v))
    case Close => j.(pc := Closed(j.pc.v), build := j.build.(done := true))
  }

  function NewClient(id: BuildId): Client { Client(id, None, [], [], true, false, false) }

  function ReadOnce(c: Client, log: seq<LogEntry>, capacity: nat, limit: int): Client
    requires c.told.Some?
  {
    var page := ReadLog(log, capacity, |c.got|, limit);
    Client(c.target, None, c.got + page.entries,
           c.at + Span(page.next - |page.entries|, |page.entries|),
           c.keptUp && |log| - |c.got| <= capacity,
           0 < limit < |log| - RingBuffer.Start(|log|, capacity, |c.got|),
           Terminal(c.told.value))
  }

  // A read is cut exactly if its limit kept lines from the client that were
  // there, and ends the polling exactly if the status told before it was final.
  lemma ReadTells(c: Client, log: seq<LogEntry>, capacity: nat, limit: int)
    requires c.told.Some? && |c.got| <= |log| && capacity > 0
    ensures var c' := ReadOnce(c, log, capacity, limit);
            && (c'.cut <==> 0 < limit && ReadLog(log, capacity, |c.got|, limit).next < |log|)
            && (c'.stopped <==> c.told.value == Ready || c.told.value == Failed)
  {
  }

  ghost predicate Enabled(s: St, l: Label) {
    match l
    case Enqueue(_, _) => s.lock.None?
    case Work(id, step) => id in s.jobs && CanStep(s.jobs[id].pc, step, s.lock.None?)
    case Cancel(id) => s.lock.None? && id in s.jobs
    case Join(c, id) => c !in s.clients && id in s.jobs
    case AskStatus(c) =>
      && c in s.clients && s.lock.None? && s.clients[c].target in s.jobs
      && !s.clients[c].stopped && s.clients[c].told.None?
    case ReadLogs(c, _) => c in s.clients && s.clients[c].target in s.jobs && s.clients[c].told.Some?
  }

  function Apply(s: St, l: Label): St
    requires Enabled(s, l)
  {
    match l
    case Enqueue(req, now) =>
      if req.buildId in s.jobs then s
      else s.(jobs := s.jobs[req.buildId := Job(NewBuild(req, now), Spawned, now, [])])
    case Work(id, step) =>
      var j := s.jobs[id];
      s.(jobs := s.jobs[id := StepJob(j, step)],
         lock := if step.Mark? then Some(id) else if step.Release? then None else s.lock,
         results := if step.Notify? then s.results + [ResultOf(j.build, j.pc.v)] else s.results)
    case Cancel(id) =>
      s.(jobs := s.jobs[id := s.jobs[id].(build := s.jobs[id].build.(cancelled := true))])
    case Join(c, id) => s.(clients := s.clients[c := NewClient(id)])
    case AskStatus(c) =>
      s.(clients := s.clients[c := s.clients[c].(told := Some(s.jobs[s.clients[c].target].build.status))])
    case ReadLogs(c, limit) =>
      s.(clients := s.clients[c := ReadOnce(s.clients[c], s.jobs[s.clients[c].target].build.log, s.capacity, limit)])
  }

  ghost predicate Init(s: St) {
    s.capacity > 0 && s.jobs == map[] && s.lock == None && s.results == [] && s.clients == map[]
  }

  ghost predicate IsRun(states: seq<St>, labels: seq<Label>) {
    && |states| == |labels| + 1
    && Init(states[0])
    && forall i | 0 <= i < |labels| :: Enabled(states[i], labels[i]) && states[i + 1] == Apply(states[i], labels[i])
  }

  // ------------------------------------------------------------ the invariant

  predicate Decided(pc: Pc) { pc.Marked? || pc.Logged? || pc.Notified? || pc.Released? || pc.Closed? }

  predicate Holding(pc: Pc) { pc.Marked? || pc.Logged? || pc.Notified? }

  predicate Announced(pc: Pc) { pc.Notified? || pc.Released? || pc.Closed? }

  predicate Settled(pc: Pc) { pc.Released? || pc.Closed? }

  function Opening(j: Job): seq<LogEntry> {
    if j.pc.Spawned? || j.pc.Started? then [] else [StartLine(j.build, j.begun)] + j.lines
  }

  function Ending(j: Job): seq<LogEntry> {
    if Decided(j.pc) && !j.pc.Marked? then [EndLine(j.build, j.pc.v)] else []
  }

  // The whole log of a settled build.
  function FullLog(j: Job): seq<LogEntry>
    requires Decided(j.pc)
  {
    [StartLine(j.build, j.begun)] + j.lines + [EndLine(j.build, j.pc.v)]
  }

  ghost predicate JobOk(j: Job) {
    && j.build.log == Opening(j) + Ending(j)
    && j.build.status == (if j.pc.Spawned? then Waiting else if Decided(j.pc) then FinalStatus(j.pc.v) else Building)
    && j.build.finishedAt == (if Decided(j.pc) then Some(j.pc.v.now) else None)
    && j.build.reason == (if Decided(j.pc) then FinalReason(j.pc.v) else "")
    && j.build.done == j.pc.Closed?
    && (j.pc.Spawned? || j.pc.Started? ==> j.lines == [])
  }

  // Every received line is the log line at its position.
  ghost predicate Mirrors(got: seq<LogEntry>, at: seq<nat>, log: seq<LogEntry>) {
    && |got| == |at|
    && forall i | 0 <= i < |at| :: at[i] < |log| && got[i] == log[at[i]]
  }

  ghost predicate ClientOk(c: Client, j: Job) {
    && Mirrors(c.got, c.at, j.build.log)
    && (c.keptUp <==> c.at == Span(0, |c.at|))
    && (c.told.Some? && Terminal(c.told.value) ==> Settled(j.pc) && c.told.value == j.build.status)
    && (c.stopped ==> Settled(j.pc) && c.told.None? && (c.keptUp && !c.cut ==> c.got == j.build.log))
  }

  function ResultsFor(results: seq<BuildResult>, id: BuildId): seq<BuildResult> {
    Filter(results, (r: BuildResult) => r.buildId == id)
  }

  ghost predicate CalledBack(s: St, id: BuildId) {
    ResultsFor(s.results, id) ==
    if id in s.jobs && Announced(s.jobs[id].pc) then [ResultOf(s.jobs[id].build, s.jobs[id].pc.v)] else []
  }

  ghost predicate LockFits(s: St, k: BuildId) {
    (s.lock == Some(k)) <==> (k in s.jobs && Holding(s.jobs[k].pc))
  }

  ghost predicate Inv(s: St) {
    && s.capacity > 0
    && (forall id | id in s.jobs :: JobOk(s.jobs[id]) && s.jobs[id].build.buildId == id)
    && (forall id :: LockFits(s, id))
    && (forall id :: CalledBack(s, id))
    && (forall c | c in s.clients ::
          s.clients[c].target in s.jobs && ClientOk(s.clients[c], s.jobs[s.clients[c].target]))
  }

  // --------------------------------------------------------- one step at a time

  lemma StepKeepsJob(j: Job, step: Step)
    requires JobOk(j) && CanStep(j.pc, step, true)
    ensures JobOk(StepJob(j, step))
    ensures StepJob(j, step).build.buildId == j.build.buildId
  {
    var j' := StepJob(j, step);
    match step
    case Emit(entry, now) =>
      assert Opening(j') == Opening(j) + [Stamped(entry, now)];
    case _ =>
  }

  // A job only ever moves on: its log grows, and once settled it stays as it is.
  ghost predicate Onward(j: Job, j': Job) {
    && j.build.log <= j'.build.log
    && (Settled(j.pc) ==>
          && Settled(j'.pc) && j'.pc.v == j.pc.v
          && j'.build.log == j.build.log && j'.build.status == j.build.status)
  }

  lemma StepIsOnward(j: Job, step: Step)
    requires CanStep(j.pc, step, true)
    ensures Onward(j, StepJob(j, step))
  {
  }

  lemma ClientRides(c: Client, j: Job, j': Job)
    requires ClientOk(c, j) && Onward(j, j')
    ensures ClientOk(c, j')
  {
  }

  lemma SpanExtends(at: seq<nat>, from: nat, n: nat)
    ensures at + Span(from, n) == Span(0, |at| + n) <==> at == Span(0, |at|) && (n == 0 || from == |at|)
  {
    var longer := at + Span(from, n);
    if longer == Span(0, |at| + n) {
      assert at == longer[..|at|] == Span(0, |at|);
      if n > 0 { assert longer[|at|] == from; }
    }
  }

  lemma MirrorsMore(got: seq<LogEntry>, at: seq<nat>, log: seq<LogEntry>, from: nat, n: nat)
    requires Mirrors(got, at, log) && from + n <= |log|
    ensures Mirrors(got + log[from..from + n], at + Span(from, n), log)
  {
  }

  // A client that has every line up to its offset and reads without being cut
  // short has the whole log.
  lemma WholeLog(got: seq<LogEntry>, at: seq<nat>, log: seq<LogEntry>)
    requires Mirrors(got, at, log) && at == Span(0, |at|)
    ensures |got| <= |log| && got == log[..|got|]
  {
    if |got| > 0 { assert at[|got| - 1] == |got| - 1; }
  }

  lemma ReadKeepsClient(c: Client, j: Job, capacity: nat, limit: int)
    requires capacity > 0 && ClientOk(c, j) && c.told.Some?
    ensures ClientOk(ReadOnce(c, j.build.log, capacity, limit), j)
  {
    var log := j.build.log;
    var from, n := RingBuffer.Start(|log|, capacity, |c.got|), Count(|log|, capacity, |c.got|, limit);
    var c' := ReadOnce(c, log, capacity, limit);
    assert c'.at == c.at + Span(from, n) && c'.got == c.got + log[from..from + n];
    SpanExtends(c.at, from, n);
    MirrorsMore(c.got, c.at, log, from, n);
    if c.keptUp { WholeLog(c.got, c.at, log); }
    if c'.keptUp && !c'.cut {
      WholeLog(c'.got, c'.at, log);
      assert from + n == |log|;
    }
  }

  // Replacing one job by one that has moved on keeps everybody's facts, as long
  // as the lock and the list of results are moved along with it.
  lemma MoveKeepsClients(s: St, id: BuildId, j': Job)
    requires Inv(s) && id in s.jobs && Onward(s.jobs[id], j')
    ensures forall c | c in s.clients ::
              s.clients[c].target in s.jobs[id := j'] && ClientOk(s.clients[c], s.jobs[id := j'][s.clients[c].target])
  {
    forall c | c in s.clients
      ensures ClientOk(s.clients[c], s.jobs[id := j'][s.clients[c].target])
    {
      if s.clients[c].target == id { ClientRides(s.clients[c], s.jobs[id], j'); }
    }
  }

  lemma StepKeepsResult(j: Job, step: Step)
    requires CanStep(j.pc, step, true)
    ensures var j' := StepJob(j, step);
            && (Announced(j'.pc) <==> Announced(j.pc) || step.Notify?)
            && (Announced(j'.pc) ==> j'.pc.v == j.pc.v && ResultOf(j'.build, j'.pc.v) == ResultOf(j.build, j.pc.v))
  {
  }

  lemma WorkKeepsResults(s: St, id: BuildId, step: Step, k: BuildId)
    requires id in s.jobs && CanStep(s.jobs[id].pc, step, true) && s.jobs[id].build.buildId == id
    requires CalledBack(s, k) && Enabled(s, Work(id, step))
    ensures CalledBack(Apply(s, Work(id, step)), k)
  {
    StepKeepsResult(s.jobs[id], step);
    if step.Notify? {
      var r := ResultOf(s.jobs[id].build, s.jobs[id].pc.v);
      FilterAppend(s.results, r, (r: BuildResult) => r.buildId == k);
    }
  }

  lemma WorkKeepsLock(s: St, id: BuildId, step: Step, k: BuildId)
    requires LockFits(s, id) && LockFits(s, k) && Enabled(s, Work(id, step))
    ensures LockFits(Apply(s, Work(id, step)), k)
  {
  }

  lemma WorkKeepsInv(s: St, id: BuildId, step: Step)
    requires Inv(s) && Enabled(s, Work(id, step))
    ensures Inv(Apply(s, Work(id, step)))
  {
    var j := s.jobs[id];
    StepKeepsJob(j, step);
    StepIsOnward(j, step);
    MoveKeepsClients(s, id, StepJob(j, step));
    forall k ensures CalledBack(Apply(s, Work(id, step)), k) { WorkKeepsResults(s, id, step, k); }
    forall k ensures LockFits(Apply(s, Work(id, step)), k) { WorkKeepsLock(s, id, step, k); }
  }

  lemma EnqueueKeepsInv(s: St, req: BuildRequest, now: Time)
    requires Inv(s) && Enabled(s, Enqueue(req, now))
    ensures Inv(Apply(s, Enqueue(req, now)))
  {
    var s' := Apply(s, Enqueue(req, now));
    forall k ensures CalledBack(s', k) && LockFits(s', k) { assert CalledBack(s, k) && LockFits(s, k); }
  }

  lemma CancelKeepsInv(s: St, id: BuildId)
    requires Inv(s) && Enabled(s, Cancel(id))
    ensures Inv(Apply(s, Cancel(id)))
  {
    var s' := Apply(s, Cancel(id));
    assert JobOk(s.jobs[id]);
    assert JobOk(s'.jobs[id]);
    MoveKeepsClients(s, id, s'.jobs[id]);
    forall k ensures CalledBack(s', k) && LockFits(s', k) { assert CalledBack(s, k) && LockFits(s, k); }
  }

  // A client that is told a final status is told it with the lock free, so the
  // build it asks about has already written its last line.
  lemma AskKeepsInv(s: St, c: ClientId)
    requires Inv(s) && Enabled(s, AskStatus(c))
    ensures Inv(Apply(s, AskStatus(c)))
  {
    var s' := Apply(s, AskStatus(c));
    var j := s.jobs[s.clients[c].target];
    assert JobOk(j) && LockFits(s, s.clients[c].target);
    assert ClientOk(s'.clients[c], j);
    forall k ensures CalledBack(s', k) && LockFits(s', k) { assert CalledBack(s, k) && LockFits(s, k); }
  }

  lemma ReadKeepsInv(s: St, c: ClientId, limit: int)
    requires Inv(s) && Enabled(s, ReadLogs(c, limit))
    ensures Inv(Apply(s, ReadLogs(c, limit)))
  {
    var s' := Apply(s, ReadLogs(c, limit));
    ReadKeepsClient(s.clients[c], s.jobs[s.clients[c].target], s.capacity, limit);
    forall k ensures CalledBack(s', k) && LockFits(s', k) { assert CalledBack(s, k) && LockFits(s, k); }
  }

  lemma StepKeepsInv(s: St, l: Label)
    requires Inv(s) && Enabled(s, l)
    ensures Inv(Apply(s, l))
  {
    match l
    case Enqueue(req, now) => EnqueueKeepsInv(s, req, now);
    case Work(id, step) => WorkKeepsInv(s, id, step);
    case Cancel(id) => CancelKeepsInv(s, id);
    case Join(c, id) =>
      forall k
        ensures CalledBack(Apply(s, l), k) && LockFits(Apply(s, l), k)
      {
        assert CalledBack(s, k) && LockFits(s, k);
      }
    case AskStatus(c) => AskKeepsInv(s, c);
    case ReadLogs(c, limit) => ReadKeepsInv(s, c, limit);
  }

  lemma {:induction false} RunKeepsInv(states: seq<St>, labels: seq<Label>, i: nat)
    requires IsRun(states, labels) && i < |states|
    ensures Inv(states[i])
  {
    if i == 0 {
    } else {
      RunKeepsInv(states, labels, i - 1);
      StepKeepsInv(states[i - 1], labels[i - 1]);
    }
  }

  // ------------------------------------------------------------- main results

  // No line lost, none repeated. The lines a client holds are exactly the
  // first lines of the log precisely as long as no read found it more than the
  // capacity behind; and if its last read was not cut short, what it holds when
  // it stops is the start line, all the executor's lines in order, and the line
  // that tells how the build ended.
  lemma NoLineLostOrRepeated(states: seq<St>, labels: seq<Label>, i: nat, c: ClientId)
    requires IsRun(states, labels) && i < |states| && c in states[i].clients
    ensures var me := states[i].clients[c];
            && me.target in states[i].jobs
            && var j := states[i].jobs[me.target];
            && Mirrors(me.got, me.at, j.build.log)
            && (me.keptUp <==> me.at == Span(0, |me.at|))
            && (me.keptUp ==> |me.got| <= |j.build.log| && me.got == j.build.log[..|me.got|])
            && (me.stopped ==> Settled(j.pc) && j.build.log == FullLog(j))
            && (me.stopped && me.keptUp && !me.cut ==> me.got == FullLog(j))
  {
    RunKeepsInv(states, labels, i);
    var me := states[i].clients[c];
    if me.keptUp { WholeLog(me.got, me.at, states[i].jobs[me.target].build.log); }
  }

  lemma OneMore(states: seq<St>, labels: seq<Label>, l: Label) returns (states': seq<St>, labels': seq<Label>)
    requires IsRun(states, labels) && Enabled(states[|labels|], l)
    ensures IsRun(states', labels') && states <= states' && |labels'| == |labels| + 1
    ensures states'[|labels'|] == Apply(states[|labels|], l)
  {
    states', labels' := states + [Apply(states[|labels|], l)], labels + [l];
  }

  // A client that may ask about a build that has ended.
  ghost predicate MayAsk(s: St, c: ClientId) {
    && c in s.clients && s.lock.None? && !s.clients[c].stopped && s.clients[c].told.None?
    && s.clients[c].target in s.jobs && Terminal(s.jobs[s.clients[c].target].build.status)
  }

  // ... and what it has come to when it stops uncut.
  ghost predicate Finished(s: St, c: ClientId, s': St)
    requires MayAsk(s, c)
  {
    && s'.jobs == s.jobs && c in s'.clients && s'.clients[c].target == s.clients[c].target
    && s'.clients[c].stopped && !s'.clients[c].cut
    && (s'.clients[c].keptUp <==>
          s.clients[c].keptUp && |s.jobs[s.clients[c].target].build.log| - |s.clients[c].got| <= s.capacity)
  }

  lemma AskedAndRead(s: St, c: ClientId)
    requires MayAsk(s, c) && s.capacity > 0 && |s.clients[c].got| <= |s.jobs[s.clients[c].target].build.log|
    ensures Enabled(s, AskStatus(c)) && Enabled(Apply(s, AskStatus(c)), ReadLogs(c, 0))
    ensures Finished(s, c, Apply(Apply(s, AskStatus(c)), ReadLogs(c, 0)))
  {
    var asked := Apply(s, AskStatus(c)).clients[c];
    ReadTells(asked, s.jobs[asked.target].build.log, s.capacity, 0);
  }

  lemma GotIsShorter(states: seq<St>, labels: seq<Label>, c: ClientId)
    requires IsRun(states, labels) && MayAsk(states[|labels|], c) && states[|labels|].clients[c].keptUp
    ensures var s := states[|labels|]; |s.clients[c].got| <= |s.jobs[s.clients[c].target].build.log|
  {
    NoLineLostOrRepeated(states, labels, |labels|, c);
  }

  // A client that has kept up can always finish: once the build has ended and
  // the lock is free, asking and reading without a limit stops it, with the whole
  // log if it is at most the capacity behind.
  lemma ClientCanFinish(states: seq<St>, labels: seq<Label>, c: ClientId)
      returns (states': seq<St>, labels': seq<Label>)
    requires IsRun(states, labels) && MayAsk(states[|labels|], c) && states[|labels|].clients[c].keptUp
    ensures IsRun(states', labels') && states <= states' && |labels'| == |labels| + 2
    ensures var s, s' := states[|labels|], states'[|labels'|];
            && Finished(s, c, s')
            && var j := s'.jobs[s'.clients[c].target];
               Settled(j.pc) && (s'.clients[c].keptUp ==> s'.clients[c].got == FullLog(j))
  {
    GotIsShorter(states, labels, c);
    CapacityStays(states, labels, |labels|);
    AskedAndRead(states[|labels|], c);
    states', labels' := OneMore(states, labels, AskStatus(c));
    states', labels' := OneMore(states', labels', ReadLogs(c, 0));
    NoLineLostOrRepeated(states', labels', |labels'|, c);
  }

  lemma CapacityStays(states: seq<St>, labels: seq<Label>, i: nat)
    requires IsRun(states, labels) && i < |states|
    ensures states[i].capacity > 0
  {
    RunKeepsInv(states, labels, i);
  }

  // What the executor handed to the sink of a build, and when.
  function HandedBy(l: Label, id: BuildId): seq<(LogEntry, Time)> {
    match l
    case Work(k, Emit(entry, now)) => if k == id then [(entry, now)] else []
    case _ => []
  }

  function Handed(labels: seq<Label>, id: BuildId): seq<(LogEntry, Time)> {
    if labels == [] then [] else Handed(labels[..|labels| - 1], id) + HandedBy(labels[|labels| - 1], id)
  }

  function LinesOf(s: St, id: BuildId): seq<LogEntry> {
    if id in s.jobs then s.jobs[id].lines else []
  }

  ghost predicate TookAll(handed: seq<(LogEntry, Time)>, lines: seq<LogEntry>) {
    |lines| == |handed| && forall n | 0 <= n < |handed| :: Took(handed[n].0, handed[n].1, lines[n])
  }

  lemma StepAddsItsLine(s: St, l: Label, id: BuildId)
    requires Enabled(s, l)
    ensures LinesOf(s, id) <= LinesOf(Apply(s, l), id)
    ensures TookAll(HandedBy(l, id), LinesOf(Apply(s, l), id)[|LinesOf(s, id)|..])
  {
    match l
    case Work(k, Emit(_, _)) =>
    case Work(k, _) =>
    case _ =>
  }

  // The lines a build has stored are the entries the executor handed over, each
  // once and in order, with what they leave out filled in.
  lemma {:induction false} LinesAreWhatWasEmitted(states: seq<St>, labels: seq<Label>, i: nat, id: BuildId)
    requires IsRun(states, labels) && i < |states|
    ensures var lines, handed := LinesOf(states[i], id), Handed(labels[..i], id);
            && |lines| == |handed|
            && forall n | 0 <= n < |lines| ::
                 && lines[n].message == handed[n].0.message && lines[n].source == handed[n].0.source
                 && lines[n].timestamp == (if handed[n].0.timestamp == 0 then handed[n].1 else handed[n].0.timestamp)
                 && lines[n].level == (if handed[n].0.level == "" then "info" else handed[n].0.level)
  {
    if i > 0 {
      LinesAreWhatWasEmitted(states, labels, i - 1, id);
      assert labels[..i][..i - 1] == labels[..i - 1];
      StepAddsItsLine(states[i - 1], labels[i - 1], id);
      assert TookAll(Handed(labels[..i - 1], id), LinesOf(states[i - 1], id));
      TookMore(Handed(labels[..i - 1], id), HandedBy(labels[i - 1], id), LinesOf(states[i], id));
    }
  }

  lemma TookMore(handed: seq<(LogEntry, Time)>, more: seq<(LogEntry, Time)>, lines: seq<LogEntry>)
    requires |handed| <= |lines| && TookAll(handed, lines[..|handed|]) && TookAll(more, lines[|handed|..])
    ensures TookAll(handed + more, lines)
  {
    forall n | 0 <= n < |handed + more|
      ensures Took((handed + more)[n].0, (handed + more)[n].1, lines[n])
    {
      if n < |handed| { assert lines[n] == lines[..|handed|][n]; } else {
        assert lines[n] == lines[|handed|..][n - |handed|];
      }
    }
  }

  // ------------------------------------------- how the executor's end is told

  // The executor has returned v.
  ghost predicate HasReturned(pc: Pc, v: Verdict) { (pc.Returned? || Decided(pc)) && pc.v == v }

  lemma StepKeepsVerdict(s: St, l: Label, id: BuildId, v: Verdict)
    requires Enabled(s, l) && id in s.jobs
    requires HasReturned(s.jobs[id].pc, v) || l == Work(id, Return(v))
    ensures id in Apply(s, l).jobs && HasReturned(Apply(s, l).jobs[id].pc, v)
  {
  }

  lemma {:induction false} ReturnIsKept(states: seq<St>, labels: seq<Label>, m: nat, i: nat, id: BuildId, v: Verdict)
    requires IsRun(states, labels) && m < i < |states| && labels[m] == Work(id, Return(v))
    ensures id in states[i].jobs && HasReturned(states[i].jobs[id].pc, v)
  {
    assert Enabled(states[m], labels[m]);
    if m < i - 1 { ReturnIsKept(states, labels, m, i - 1, id, v); }
    StepKeepsVerdict(states[i - 1], labels[i - 1], id, v);
  }

  // A build ends as its executor did: ready exactly if the executor returned no
  // error, and otherwise failed with that error for its reason. The last line
  // of its log says the same.
  lemma BuildEndsAsReturned(states: seq<St>, labels: seq<Label>, m: nat, i: nat, id: BuildId, v: Verdict)
    requires IsRun(states, labels) && m < i < |states| && labels[m] == Work(id, Return(v))
    ensures id in states[i].jobs
    ensures var b := states[i].jobs[id].build;
            b.status == Ready || b.status == Failed ==>
              && (b.status == Ready <==> v.error.None?)
              && b.reason == (if v.error.None? then "" else v.error.value)
              && b.finishedAt == Some(v.now)
              && (states[i].lock.None? ==> b.log != [] && TellsTheEnd(b.log[|b.log| - 1], b.resultTag, v))
  {
    ReturnIsKept(states, labels, m, i, id, v);
    RunKeepsInv(states, labels, i);
    assert JobOk(states[i].jobs[id]) && LockFits(states[i], id);
  }

  lemma StepGivesVerdict(s: St, l: Label, id: BuildId)
    requires Enabled(s, l) && id in Apply(s, l).jobs
    requires var pc := Apply(s, l).jobs[id].pc; pc.Returned? || Decided(pc)
    ensures var v := Apply(s, l).jobs[id].pc.v;
            l == Work(id, Return(v)) || (id in s.jobs && HasReturned(s.jobs[id].pc, v))
  {
  }

  lemma GivenBefore(s: St, l: Label, s': St, id: BuildId, v: Verdict)
    requires Enabled(s, l) && s' == Apply(s, l) && id in s'.jobs && HasReturned(s'.jobs[id].pc, v)
    requires l != Work(id, Return(v))
    ensures id in s.jobs && HasReturned(s.jobs[id].pc, v)
  {
    StepGivesVerdict(s, l, id);
  }

  // ... and none ends before its executor has returned.
  lemma {:induction false} VerdictWasReturned(states: seq<St>, labels: seq<Label>, i: nat, id: BuildId)
      returns (m: nat, v: Verdict)
    requires IsRun(states, labels) && i < |states| && id in states[i].jobs
    requires var pc := states[i].jobs[id].pc; pc.Returned? || Decided(pc)
    ensures m < i && labels[m] == Work(id, Return(v)) && states[i].jobs[id].pc.v == v
  {
    assert i > 0;
    m, v := i - 1, states[i].jobs[id].pc.v;
    if labels[m] != Work(id, Return(v)) {
      GivenBefore(states[m], labels[m], states[i], id, v);
      m, v := VerdictWasReturned(states, labels, m, id);
    }
  }

  lemma EndedBuildsReturned(states: seq<St>, labels: seq<Label>, i: nat, id: BuildId) returns (m: nat, v: Verdict)
    requires IsRun(states, labels) && i < |states| && id in states[i].jobs
    requires states[i].jobs[id].build.status == Ready || states[i].jobs[id].build.status == Failed
    ensures m < i && labels[m] == Work(id, Return(v))
    ensures states[i].jobs[id].build.status == Ready <==> v.error.None?
  {
    RunKeepsInv(states, labels, i);
    assert JobOk(states[i].jobs[id]);
    m, v := VerdictWasReturned(states, labels, i, id);
  }

  // A final status seen by anyone who can take the lock comes with its last line.
  lemma VisibleVerdictHasItsLine(states: seq<St>, labels: seq<Label>, i: nat, id: BuildId)
    requires IsRun(states, labels) && i < |states| && id in states[i].jobs
    requires states[i].lock.None? && Terminal(states[i].jobs[id].build.status)
    ensures var j := states[i].jobs[id]; Settled(j.pc) && j.build.log == FullLog(j)
  {
    RunKeepsInv(states, labels, i);
    assert LockFits(states[i], id);
    assert JobOk(states[i].jobs[id]);
  }

  function Rank(s: Status): nat {
    match s
    case Waiting => 0
    case Building => 1
    case Ready => 2
    case Failed => 2
  }

  ghost predicate LaterThan(b: Build, b': Build) {
    && Rank(b.status) <= Rank(b'.status)
    && (Terminal(b.status) ==> b'.status == b.status && b'.reason == b.reason && b'.finishedAt == b.finishedAt)
    && b.log <= b'.log && (b.done ==> b'.done && b'.log == b.log)
  }

  lemma StepJobMovesForward(j: Job, step: Step)
    requires JobOk(j) && CanStep(j.pc, step, true)
    ensures LaterThan(j.build, StepJob(j, step).build)
  {
  }

  lemma StepMovesForward(s: St, l: Label, id: BuildId)
    requires Inv(s) && Enabled(s, l) && id in s.jobs
    ensures id in Apply(s, l).jobs && LaterThan(s.jobs[id].build, Apply(s, l).jobs[id].build)
  {
    match l
    case Work(k, step) => if k == id { StepJobMovesForward(s.jobs[id], step); }
    case _ =>
  }

  function StatusOf(s: St, id: BuildId): Option<Status> {
    if id in s.jobs then Some(s.jobs[id].build.status) else None
  }

  // One move of a status: a new build is waiting, then building, then final.
  predicate MovesOn(a: Option<Status>, b: Option<Status>) {
    || a == b
    || (a.None? && b == Some(Waiting))
    || (a == Some(Waiting) && b == Some(Building))
    || (a == Some(Building) && b.Some? && Terminal(b.value))
  }

  lemma StepJobMovesOn(j: Job, step: Step)
    requires JobOk(j) && CanStep(j.pc, step, true)
    ensures MovesOn(Some(j.build.status), Some(StepJob(j, step).build.status))
  {
  }

  lemma StepMovesOn(s: St, l: Label, id: BuildId)
    requires Enabled(s, l) && (id in s.jobs ==> JobOk(s.jobs[id]))
    ensures MovesOn(StatusOf(s, id), StatusOf(Apply(s, l), id))
  {
    match l
    case Work(k, step) => if k == id { StepJobMovesOn(s.jobs[id], step); }
    case _ =>
  }

  // From one state to the next a status stays, or goes from waiting to building,
  // or from building to ready or error; a new build is waiting.
  lemma StatusTakesEveryStep(states: seq<St>, labels: seq<Label>, i: nat, id: BuildId)
    requires IsRun(states, labels) && i < |labels|
    ensures MovesOn(StatusOf(states[i], id), StatusOf(states[i + 1], id))
  {
    RunKeepsInv(states, labels, i);
    StepMovesOn(states[i], labels[i], id);
  }

  // So a build that has ended has been building at some point before.
  lemma {:induction false} NoneSkipsBuilding(states: seq<St>, labels: seq<Label>, k: nat, id: BuildId) returns (m: nat)
    requires IsRun(states, labels) && k < |states|
    requires StatusOf(states[k], id).Some? && Terminal(StatusOf(states[k], id).value)
    ensures m < k && StatusOf(states[m], id) == Some(Building)
  {
    assert k > 0;
    StatusTakesEveryStep(states, labels, k - 1, id);
    m := k - 1;
    if StatusOf(states[m], id) != Some(Building) { m := NoneSkipsBuilding(states, labels, k - 1, id); }
  }

  // Status only moves on; once final, status, reason and finish time stay.
  lemma {:induction false} StatusOnlyMovesForward(states: seq<St>, labels: seq<Label>, i: nat, k: nat, id: BuildId)
    requires IsRun(states, labels) && i <= k < |states| && id in states[i].jobs
    ensures id in states[k].jobs && LaterThan(states[i].jobs[id].build, states[k].jobs[id].build)
  {
    if i < k {
      StatusOnlyMovesForward(states, labels, i, k - 1, id);
      RunKeepsInv(states, labels, k - 1);
      StepMovesForward(states[k - 1], labels[k - 1], id);
      var a, b, c := states[i].jobs[id].build, states[k - 1].jobs[id].build, states[k].jobs[id].build;
      assert LaterThan(a, b) && LaterThan(b, c);
    }
  }

  // The finish time is there exactly when the status is final.
  lemma FinishTimeMeansFinal(states: seq<St>, labels: seq<Label>, i: nat, id: BuildId)
    requires IsRun(states, labels) && i < |states| && id in states[i].jobs
    ensures var b := states[i].jobs[id].build; b.finishedAt.Some? <==> Terminal(b.status)
  {
    RunKeepsInv(states, labels, i);
    assert JobOk(states[i].jobs[id]);
  }

  // The callback is made at most once, never before the status is final, with
  // that status and reason; a caller whose Wait succeeds comes after it.
  lemma CallbackExactlyOnce(states: seq<St>, labels: seq<Label>, i: nat, id: BuildId)
    requires IsRun(states, labels) && i < |states| && id in states[i].jobs
    ensures var b := states[i].jobs[id].build;
            var mine := ResultsFor(states[i].results, id);
            && |mine| <= 1
            && (mine != [] ==> Terminal(b.status) && mine[0] == BuildResult(b.templateId, id, b.status, b.reason))
            && (Terminal(b.status) && states[i].lock.None? ==> |mine| == 1)
            && (b.done ==> |mine| == 1)
  {
    RunKeepsInv(states, labels, i);
    assert CalledBack(states[i], id) && LockFits(states[i], id);
    StateCallsBackOnce(states[i], id);
  }

  lemma StateCallsBackOnce(s: St, id: BuildId)
    requires id in s.jobs && JobOk(s.jobs[id]) && s.jobs[id].build.buildId == id
    requires CalledBack(s, id) && LockFits(s, id)
    ensures var b := s.jobs[id].build;
            var mine := ResultsFor(s.results, id);
            && |mine| <= 1
            && (mine != [] ==> Terminal(b.status) && mine[0] == BuildResult(b.templateId, id, b.status, b.reason))
            && (Terminal(b.status) && s.lock.None? ==> |mine| == 1)
            && (b.done ==> |mine| == 1)
  {
  }

  // Some step the goroutine of an unfinished build takes next.
  function NextStep(pc: Pc): Step
    requires !pc.Closed?
  {
    match pc
    case Spawned => Begin
    case Started => WriteStart(ZERO_TIME)
    case Executing => Return(Verdict(None, ZERO_TIME))
    case Returned(_) => Mark
    case Marked(_) => WriteEnd
    case Logged(_) => Notify
    case Notified(_) => Release
    case Released(_) => Close
  }

  // The lock never wedges: a build that is not done can move, or the holder can.
  lemma SomeoneCanMove(states: seq<St>, labels: seq<Label>, i: nat, id: BuildId)
    requires IsRun(states, labels) && i < |states| && id in states[i].jobs && !states[i].jobs[id].build.done
    ensures exists k, next :: Enabled(states[i], Work(k, next)) && (k == id || states[i].lock == Some(k))
  {
    RunKeepsInv(states, labels, i);
    assert JobOk(states[i].jobs[id]);
    var k := if states[i].lock.Some? then states[i].lock.value else id;
    assert LockFits(states[i], k);
    assert Enabled(states[i], Work(k, NextStep(states[i].jobs[k].pc)));
  }

  // ------------------------------------------- a goroutine with no company

  ghost predicate Moves(j: Job, step: Step, j': Job) { CanStep(j.pc, step, true) && j' == StepJob(j, step) }

  ghost predicate IsTrail(trail: seq<Job>, steps: seq<Step>) {
    && |trail| == |steps| + 1
    && forall k | 0 <= k < |steps| :: Moves(trail[k], steps[k], trail[k + 1])
  }

  lemma Go(trail: seq<Job>, steps: seq<Step>, step: Step) returns (trail': seq<Job>, steps': seq<Step>)
    requires IsTrail(trail, steps) && CanStep(trail[|steps|].pc, step, true)
    ensures IsTrail(trail', steps') && trail'[0] == trail[0]
    ensures trail'[|steps'|] == StepJob(trail[|steps|], step)
  {
    trail', steps' := trail + [StepJob(trail[|steps|], step)], steps + [step];
  }

  lemma {:induction false} EmitAll(trail: seq<Job>, steps: seq<Step>, output: seq<LogEntry>, now: Time)
      returns (trail': seq<Job>, steps': seq<Step>)
    requires IsTrail(trail, steps) && trail[|steps|].pc.Executing?
    ensures IsTrail(trail', steps') && trail'[0] == trail[0] && trail'[|steps'|].pc.Executing?
    ensures trail'[|steps'|].build == WithLines(trail[|steps|].build, output, now)
    decreases |output|
  {
    trail', steps' := trail, steps;
    if output != [] {
      trail', steps' := EmitAll(trail, steps, output[..|output| - 1], now);
      trail', steps' := Go(trail', steps', Emit(output[|output| - 1], now));
    }
  }

  // The goroutine as the class runs it is one schedule of its steps.
  lemma RunIsASchedule(j: Job, output: seq<LogEntry>, now: Time, v: Verdict)
      returns (trail: seq<Job>, steps: seq<Step>)
    requires j.pc.Spawned?
    ensures IsTrail(trail, steps) && trail[0] == j
    ensures trail[|steps|].pc == Closed(v) && trail[|steps|].build == RunToEnd(j.build, output, now, v)
  {
    trail, steps := [j], [];
    trail, steps := Go(trail, steps, Begin);
    trail, steps := Go(trail, steps, WriteStart(now));
    assert trail[|steps|].build == Begun(j.build, now);
    trail, steps := EmitAll(trail, steps, output, now);
    trail, steps := Go(trail, steps, Return(v));
    trail, steps := Go(trail, steps, Mark);
    trail, steps := Go(trail, steps, WriteEnd);
    trail, steps := Go(trail, steps, Notify);
    trail, steps := Go(trail, steps, Release);
    trail, steps := Go(trail, steps, Close);
  }
}
