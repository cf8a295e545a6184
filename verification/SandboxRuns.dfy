// Whole runs of manager operations, one after another under a clock that never
// goes back, with restarts: what the reaper may and may not do to a sandbox,
// said in terms of what happened to that sandbox earlier in the run.
module SandboxRuns {
  import opened Common
  import opened SandboxModel
  import opened Rehydration
  import opened SandboxOps
  import opened SandboxPromises
  import opened SandboxReaper

  // An operation run to its end, with the outcome of its calls decided, or a
  // restart of the server.
  datatype Step =
    | Create(req: CreateRequest, faults: Faults)
    | Destroy(id: Id, faults: Faults)
    | SetTimeout(id: Id, timeout: Time)
    | Connect(id: Id, timeout: Time, faults: Faults)
    | Pause(id: Id, faults: Faults)
    | Stop(id: Id, faults: Faults)
    | Resume(id: Id, faults: Faults)
    | Sweep(plan: SweepPlan, sweepFaults: SweepFaults)
    | Restart(defaultTimeout: Time)

  function ReplyTo(w: World, op: Step, now: Time): Reply {
    match op
    case Create(req, f) => CreateReply(w, req, now, f)
    case Destroy(id, f) => DestroyReply(w, id, f)
    case SetTimeout(id, timeout) => SetTimeoutReply(w, id, timeout, now)
    case Connect(id, timeout, f) => ConnectReply(w, id, timeout, now, f)
    case Pause(id, f) => PauseReply(w, id, now, f)
    case Stop(id, f) => StopReply(w, id, now, f)
    case Resume(id, f) => ResumeReply(w, id, f)
    case Sweep(plan, f) => Reply(SweepWorld(w, plan, now, f), Success)
    case Restart(t) => Reply(RehydrateWorld(World(map[], w.cs), now, t), Success)
  }

  // A run: the worlds between steps, the steps, and the clock at each step.
  datatype Run = Run(worlds: seq<World>, ops: seq<Step>, times: seq<Time>)

  // What a step may assume: minted ids are new, a request has its defaults
  // filled in, a sweep has some plan the code could have made.
  ghost predicate Allowed(w: World, op: Step, policy: Policy, now: Time) {
    && (op.Create? ==> op.req.id !in w.reg && op.req.templateID != "" && op.req.onTimeout != "")
    && (op.Sweep? ==> PlanFor(w.reg, policy, now, op.plan))
  }

  ghost predicate StepOk(r: Run, policy: Policy, i: nat)
    requires i < |r.ops| == |r.times| && |r.worlds| == |r.ops| + 1
  {
    && Allowed(r.worlds[i], r.ops[i], policy, r.times[i])
    && r.worlds[i + 1] == ReplyTo(r.worlds[i], r.ops[i], r.times[i]).world
    && forall j | 0 <= j <= i :: r.times[j] <= r.times[i]
  }

  // The manager starts with an empty registry and any containers.
  ghost predicate IsRun(r: Run, policy: Policy) {
    && |r.worlds| == |r.ops| + 1 && |r.times| == |r.ops|
    && r.worlds[0].reg == map[]
    && forall i: nat | i < |r.ops| :: StepOk(r, policy, i)
  }

  lemma StepKeepsRegOk(w: World, op: Step, policy: Policy, now: Time)
    requires RegOk(w) && Allowed(w, op, policy, now)
    ensures RegOk(ReplyTo(w, op, now).world)
  {
    match op
    case Sweep(plan, f) => SweepKeepsRegOk(w, policy, now, plan, f, SweepWorld(w, plan, now, f));
    case Restart(t) => RestartIsRegOk(w, now, t);
    case Connect(id, t, f) => ConnectKeepsRegOk(w, id, t, now, f);
    case Resume(id, f) => ResumeKeepsRegOk(w, id, f);
    case Create(req, f) => CreateKeepsRegOk(w, req, now, f);
    case _ => CallKeepsRegOk(w, op, now);
  }

  lemma ConnectKeepsRegOk(w: World, id: Id, timeout: Time, now: Time, f: Faults)
    requires RegOk(w)
    ensures RegOk(ConnectReply(w, id, timeout, now, f).world)
  {
    WakeKeepsRegOk(w.(reg := SetDeadline(w.reg, id, now + timeout)), id, f);
  }

  lemma ResumeKeepsRegOk(w: World, id: Id, f: Faults)
    requires RegOk(w)
    ensures RegOk(ResumeReply(w, id, f).world)
  {
    WakeKeepsRegOk(w, id, f);
  }

  lemma RestartIsRegOk(w: World, now: Time, defaultTimeout: Time)
    ensures RegOk(RehydrateWorld(World(map[], w.cs), now, defaultTimeout))
  {
  }

  lemma WakeKeepsRegOk(w: World, id: Id, f: Faults)
    requires RegOk(w)
    ensures id in w.reg ==> RegOk(WakeReply(w, id, f).world)
  {
  }

  lemma CreateKeepsRegOk(w: World, req: CreateRequest, now: Time, f: Faults)
    requires RegOk(w) && req.id !in w.reg
    ensures RegOk(CreateReply(w, req, now, f).world)
  {
  }

  lemma CallKeepsRegOk(w: World, op: Step, now: Time)
    requires RegOk(w)
    requires op.Destroy? || op.SetTimeout? || op.Pause? || op.Stop?
    ensures RegOk(ReplyTo(w, op, now).world)
  {
  }

  lemma {:induction false} RunIsRegOk(r: Run, policy: Policy, i: nat)
    requires IsRun(r, policy) && i < |r.worlds|
    ensures RegOk(r.worlds[i])
  {
    if i > 0 {
      RunIsRegOk(r, policy, i - 1);
      assert StepOk(r, policy, i - 1);
      StepKeepsRegOk(r.worlds[i - 1], r.ops[i - 1], policy, r.times[i - 1]);
    }
  }

  // ----------------------------------------------------------------- history

  predicate StoppedIn(w: World, id: Id) { id in w.reg && IsStopped(w.reg[id]) }

  // When the sandbox was last stopped: the time of the latest step after which
  // it is recorded stopped and before which it was not, or of the restart that
  // found it stopped.
  function StopTime(r: Run, i: nat, id: Id): Option<Time>
    requires i < |r.worlds| == |r.ops| + 1 && |r.times| == |r.ops|
  {
    if i == 0 || !StoppedIn(r.worlds[i], id) then None
    else if r.ops[i - 1].Restart? || !StoppedIn(r.worlds[i - 1], id) then Some(r.times[i - 1])
    else StopTime(r, i - 1, id)
  }

  // The deadline a step promises for a sandbox: creation, an accepted
  // SetTimeout or Connect, or the restart that picks it up.
  function Promise(w: World, op: Step, now: Time, id: Id): Option<Time> {
    match op
    case Create(req, f) =>
      if req.id == id && CreateReply(w, req, now, f).answer == Success then Some(now + req.timeout) else None
    case SetTimeout(id', timeout) =>
      if id' == id && SetTimeoutReply(w, id, timeout, now).answer == Success then Some(now + timeout) else None
    case Connect(id', timeout, f) =>
      var answer := ConnectReply(w, id', timeout, now, f).answer;
      if id' == id && answer != ErrNotFound && answer != ErrExpired then Some(now + timeout) else None
    case Restart(t) =>
      if id !in w.cs then None
      else if w.cs[id].paused || w.cs[id].stopped then Some(w.cs[id].spec.createdAt)
      else Some(now + if t <= 0 then DEFAULT_TIMEOUT else t)
    case _ => None
  }

  // ... and the last one promised so far.
  function PromisedUntil(r: Run, i: nat, id: Id): Option<Time>
    requires i < |r.worlds| == |r.ops| + 1 && |r.times| == |r.ops|
  {
    if i == 0 then None
    else
      var p := Promise(r.worlds[i - 1], r.ops[i - 1], r.times[i - 1], id);
      if p.Some? then p else PromisedUntil(r, i - 1, id)
  }

  lemma {:induction false} PausedAtIsStopTime(r: Run, policy: Policy, i: nat, id: Id)
    requires IsRun(r, policy) && i < |r.worlds| && StoppedIn(r.worlds[i], id)
    ensures StopTime(r, i, id) == Some(r.worlds[i].reg[id].pausedAt)
  {
    var before, op, now := r.worlds[i - 1], r.ops[i - 1], r.times[i - 1];
    RunIsRegOk(r, policy, i - 1);
    assert StepOk(r, policy, i - 1);
    StepStopTime(before, op, policy, now, id);
    if !op.Restart? && StoppedIn(before, id) { PausedAtIsStopTime(r, policy, i - 1, id); }
  }

  lemma StepStopTime(w: World, op: Step, policy: Policy, now: Time, id: Id)
    requires RegOk(w) && Allowed(w, op, policy, now)
    requires StoppedIn(ReplyTo(w, op, now).world, id)
    ensures ReplyTo(w, op, now).world.reg[id].pausedAt
         == if op.Restart? || !StoppedIn(w, id) then now else w.reg[id].pausedAt
  {
    match op
    case Sweep(plan, f) => SweepStopTime(w, policy, now, plan, f, id);
    case Restart(t) => RestartStopTime(w, now, t, id);
    case Connect(other, t, f) => ConnectStopTime(w, other, t, now, f, id);
    case Resume(other, f) => WakeStopTime(w, other, f, id);
    case Stop(other, f) => StoppingStopTime(w, other, now, f, id);
    case _ => OtherStopTime(w, op, now, id);
  }

  lemma SweepStopTime(w: World, policy: Policy, now: Time, plan: SweepPlan, f: SweepFaults, id: Id)
    requires RegOk(w) && PlanFor(w.reg, policy, now, plan) && StoppedIn(SweepWorld(w, plan, now, f), id)
    ensures SweepWorld(w, plan, now, f).reg[id].pausedAt == if StoppedIn(w, id) then w.reg[id].pausedAt else now
  {
    DemotedAreFrozen(w.reg, policy, now, plan);
  }

  lemma RestartStopTime(w: World, now: Time, defaultTimeout: Time, id: Id)
    requires StoppedIn(RehydrateWorld(World(map[], w.cs), now, defaultTimeout), id)
    ensures RehydrateWorld(World(map[], w.cs), now, defaultTimeout).reg[id].pausedAt == now
  {
  }

  lemma WakeStopTime(w: World, other: Id, f: Faults, id: Id)
    ensures other in w.reg && StoppedIn(WakeReply(w, other, f).world, id) ==>
      StoppedIn(w, id) && WakeReply(w, other, f).world.reg[id].pausedAt == w.reg[id].pausedAt
  {
  }

  lemma ConnectStopTime(w: World, other: Id, timeout: Time, now: Time, f: Faults, id: Id)
    requires StoppedIn(ConnectReply(w, other, timeout, now, f).world, id)
    ensures StoppedIn(w, id) && ConnectReply(w, other, timeout, now, f).world.reg[id].pausedAt == w.reg[id].pausedAt
  {
    WakeStopTime(w.(reg := SetDeadline(w.reg, other, now + timeout)), other, f, id);
  }

  lemma StoppingStopTime(w: World, other: Id, now: Time, f: Faults, id: Id)
    requires StoppedIn(StopReply(w, other, now, f).world, id)
    ensures StopReply(w, other, now, f).world.reg[id].pausedAt == if StoppedIn(w, id) then w.reg[id].pausedAt else now
  {
  }

  lemma OtherStopTime(w: World, op: Step, now: Time, id: Id)
    requires op.Create? || op.Destroy? || op.SetTimeout? || op.Pause?
    requires StoppedIn(ReplyTo(w, op, now).world, id)
    ensures StoppedIn(w, id) && ReplyTo(w, op, now).world.reg[id].pausedAt == w.reg[id].pausedAt
  {
  }

  lemma {:induction false} DeadlineIsPromise(r: Run, policy: Policy, i: nat, id: Id)
    requires IsRun(r, policy) && i < |r.worlds| && id in r.worlds[i].reg
    ensures PromisedUntil(r, i, id) == Some(r.worlds[i].reg[id].expiresAt)
  {
    var before, op, now := r.worlds[i - 1], r.ops[i - 1], r.times[i - 1];
    assert StepOk(r, policy, i - 1);
    StepDeadline(before, op, now, id);
    if Promise(before, op, now, id).None? { DeadlineIsPromise(r, policy, i - 1, id); }
  }

  // A step leaves the deadline it promised, or else the one there was.
  ghost predicate KeepsPromise(w: World, op: Step, now: Time, id: Id) {
    var reg := ReplyTo(w, op, now).world.reg;
    id in reg ==>
      match Promise(w, op, now, id)
      case Some(t) => reg[id].expiresAt == t
      case None => id in w.reg && reg[id].expiresAt == w.reg[id].expiresAt
  }

  lemma StepDeadline(w: World, op: Step, now: Time, id: Id)
    ensures KeepsPromise(w, op, now, id)
  {
    match op
    case Create(_, _) => CreateDeadline(w, op, now, id);
    case Connect(_, _, _) => ConnectDeadline(w, op, now, id);
    case Resume(id', f) => if id' in w.reg { WakeKeepsDeadlines(w, id', f); }
    case Restart(_) => RestartDeadline(w, op, now, id);
    case _ => CallDeadline(w, op, now, id);
  }

  lemma CreateDeadline(w: World, op: Step, now: Time, id: Id)
    requires op.Create?
    ensures KeepsPromise(w, op, now, id)
  {
  }

  lemma ConnectDeadline(w: World, op: Step, now: Time, id: Id)
    requires op.Connect?
    ensures KeepsPromise(w, op, now, id)
  {
    if op.id in w.reg { WakeKeepsDeadlines(w.(reg := SetDeadline(w.reg, op.id, now + op.timeout)), op.id, op.faults); }
  }

  lemma RestartDeadline(w: World, op: Step, now: Time, id: Id)
    requires op.Restart?
    ensures KeepsPromise(w, op, now, id)
  {
  }

  lemma CallDeadline(w: World, op: Step, now: Time, id: Id)
    requires op.Destroy? || op.SetTimeout? || op.Pause? || op.Stop? || op.Sweep?
    ensures KeepsPromise(w, op, now, id)
  {
  }

  lemma WakeKeepsDeadlines(w: World, id: Id, f: Faults)
    requires id in w.reg
    ensures var r := WakeReply(w, id, f);
      r.world.reg.Keys == w.reg.Keys && forall k | k in w.reg :: r.world.reg[k].expiresAt == w.reg[k].expiresAt
  {
  }

  // --------------------------------------------------------------- main result

  // Reaper safety. In any run, a sweep: leaves a running sandbox and its
  // container alone until the deadline last promised for it; never removes a
  // frozen sandbox or its container; removes a stopped one only once the
  // collection period has passed since it was last stopped or picked up stopped;
  // and removes a sandbox that asked to be paused on timeout only if the runtime
  // failed to pause it.
  lemma ReaperIsSafe(r: Run, policy: Policy, i: nat, id: Id)
    requires IsRun(r, policy) && i < |r.ops| && r.ops[i].Sweep? && id in r.worlds[i].reg
    ensures PromisedUntil(r, i, id).Some?
    ensures r.worlds[i].reg[id].state == Running && r.times[i] < PromisedUntil(r, i, id).value ==>
      Untouched(r.worlds[i], r.worlds[i + 1], id)
    ensures IsFrozen(r.worlds[i].reg[id]) ==>
      id in r.worlds[i + 1].reg && (id in r.worlds[i].cs ==> id in r.worlds[i + 1].cs)
    ensures IsStopped(r.worlds[i].reg[id]) && id !in r.worlds[i + 1].reg ==>
      && policy.stoppedGCAfter > 0 && StopTime(r, i, id).Some?
      && r.times[i] - StopTime(r, i, id).value >= policy.stoppedGCAfter
    ensures var s := r.worlds[i].reg[id];
      s.state == Running && s.profile.onTimeout == ON_TIMEOUT_PAUSE && id !in r.worlds[i + 1].reg ==>
        id in r.ops[i].sweepFaults.pause
  {
    RunningIsSpared(r, policy, i, id);
    StoppedIsSpared(r, policy, i, id);
    var w := r.worlds[i];
    SweepStep(r, policy, i);
    SweepSpares(w, policy, r.times[i], r.ops[i].plan, r.ops[i].sweepFaults, id);
    SweepSparesContainer(w, policy, r.times[i], r.ops[i].plan, r.ops[i].sweepFaults, id);
  }

  // ------------------------------------------------------- the freeze period

  // When the sandbox was last frozen: the time of the latest step after which it
  // is recorded frozen and before which it was not, or of the restart that found
  // it frozen.
  ghost function FreezeTime(r: Run, i: nat, id: Id): Option<Time>
    requires i < |r.worlds| == |r.ops| + 1 && |r.times| == |r.ops|
  {
    if i == 0 || !FrozenAt(r.worlds[i].reg, id) then None
    else if r.ops[i - 1].Restart? || !FrozenAt(r.worlds[i - 1].reg, id) then Some(r.times[i - 1])
    else FreezeTime(r, i - 1, id)
  }

  // A step that leaves a sandbox frozen.
  ghost predicate FreezeKept(w: World, op: Step, now: Time, id: Id) {
    var reg := ReplyTo(w, op, now).world.reg;
    FrozenAt(reg, id) ==>
      reg[id].pausedAt == if op.Restart? || !FrozenAt(w.reg, id) then now else w.reg[id].pausedAt
  }

  lemma SweepFreezeTime(w: World, op: Step, policy: Policy, now: Time, id: Id)
    requires op.Sweep? && Allowed(w, op, policy, now)
    ensures FreezeKept(w, op, now, id)
  {
    SweepKeepsPromise(w, policy, now, op.plan, op.sweepFaults);
    assert SweptOne(w, ReplyTo(w, op, now).world, policy, now, op.plan.demote, op.sweepFaults, id);
  }

  lemma RestartFreezeTime(w: World, op: Step, now: Time, id: Id)
    requires op.Restart?
    ensures FreezeKept(w, op, now, id)
  {
  }

  lemma CreateFreezeTime(w: World, op: Step, now: Time, id: Id)
    requires op.Create?
    ensures FreezeKept(w, op, now, id)
  {
  }

  lemma PauseFreezeTime(w: World, op: Step, now: Time, id: Id)
    requires op.Pause? || op.Stop? || op.Destroy? || op.SetTimeout?
    ensures FreezeKept(w, op, now, id)
  {
  }

  lemma WakeFreezeTime(w: World, op: Step, now: Time, id: Id)
    requires op.Connect? || op.Resume?
    ensures FreezeKept(w, op, now, id)
  {
    match op
    case Connect(other, timeout, f) =>
      ConnectKeepsPromise(w, other, timeout, now, f);
    case Resume(other, f) =>
      ResumeKeepsPromise(w, other, f);
  }

  lemma StepFreezeTime(w: World, op: Step, policy: Policy, now: Time, id: Id)
    requires Allowed(w, op, policy, now)
    ensures FreezeKept(w, op, now, id)
  {
    match op
    case Sweep(_, _) => SweepFreezeTime(w, op, policy, now, id);
    case Restart(_) => RestartFreezeTime(w, op, now, id);
    case Create(_, _) => CreateFreezeTime(w, op, now, id);
    case Connect(_, _, _) => WakeFreezeTime(w, op, now, id);
    case Resume(_, _) => WakeFreezeTime(w, op, now, id);
    case _ => PauseFreezeTime(w, op, now, id);
  }

  lemma {:induction false} PausedAtIsFreezeTime(r: Run, policy: Policy, i: nat, id: Id)
    requires IsRun(r, policy) && i < |r.worlds| && FrozenAt(r.worlds[i].reg, id)
    ensures FreezeTime(r, i, id) == Some(r.worlds[i].reg[id].pausedAt)
  {
    var before, op, now := r.worlds[i - 1], r.ops[i - 1], r.times[i - 1];
    assert StepOk(r, policy, i - 1);
    StepFreezeTime(before, op, policy, now, id);
    if !op.Restart? && FrozenAt(before.reg, id) { PausedAtIsFreezeTime(r, policy, i - 1, id); }
  }

  // Frozen for a whole period, when there is one.
  ghost predicate FrozenOut(r: Run, policy: Policy, i: nat, id: Id)
    requires i < |r.ops| == |r.times| && |r.worlds| == |r.ops| + 1
  {
    var t := FreezeTime(r, i, id);
    t.Some? && policy.freezeDuration > 0 && r.times[i] >= t.value + policy.freezeDuration
  }

  // The others that have been frozen no longer than id, and not for a period.
  ghost function FrozenNoLonger(r: Run, policy: Policy, i: nat, id: Id): set<Id>
    requires i < |r.ops| == |r.times| && |r.worlds| == |r.ops| + 1
  {
    set k | k in r.worlds[i].reg && k != id && !FrozenOut(r, policy, i, k) &&
      match (FreezeTime(r, i, id), FreezeTime(r, i, k))
      case (Some(mine), Some(theirs)) => mine <= theirs
      case _ => false
  }

  // The freeze period counts. In any run, a sweep changes a frozen sandbox or its
  // container only if that sandbox has been frozen for the whole period, or if
  // at least as many others as the cap allows have been frozen no longer.
  lemma FrozenIsSpared(r: Run, policy: Policy, i: nat, id: Id)
    requires IsRun(r, policy) && i < |r.ops| && r.ops[i].Sweep?
    requires FrozenAt(r.worlds[i].reg, id) && !Kept(r.worlds[i], r.worlds[i + 1], id)
    ensures || FrozenOut(r, policy, i, id)
            || (policy.maxFrozen > 0 && |FrozenNoLonger(r, policy, i, id)| >= policy.maxFrozen)
  {
    var w, op, now := r.worlds[i], r.ops[i], r.times[i];
    SweepStep(r, policy, i);
    SweepSparesFrozen(w, policy, now, op.plan, op.sweepFaults, id);
    PausedAtIsFreezeTime(r, policy, i, id);
    NoOlderIsNoLonger(r, policy, i, id);
  }

  lemma SweepSparesFrozen(w: World, policy: Policy, now: Time, plan: SweepPlan, f: SweepFaults, id: Id)
    requires PlanFor(w.reg, policy, now, plan)
    requires FrozenAt(w.reg, id) && !Kept(w, SweepWorld(w, plan, now, f), id)
    ensures || PeriodOver(w.reg, policy, now, id)
            || (policy.maxFrozen > 0 && |NoOlder(w.reg, policy, now, id)| >= policy.maxFrozen)
  {
    SweepKeepsPromise(w, policy, now, plan, f);
    FrozenIsLeftAlone(w, SweepWorld(w, plan, now, f), policy, now, plan.demote, f, id);
  }

  lemma NoOlderIsNoLonger(r: Run, policy: Policy, i: nat, id: Id)
    requires IsRun(r, policy) && i < |r.ops| && FrozenAt(r.worlds[i].reg, id)
    ensures |NoOlder(r.worlds[i].reg, policy, r.times[i], id)| <= |FrozenNoLonger(r, policy, i, id)|
  {
    PausedAtIsFreezeTime(r, policy, i, id);
    forall k | k in NoOlder(r.worlds[i].reg, policy, r.times[i], id)
      ensures k in FrozenNoLonger(r, policy, i, id)
    {
      PausedAtIsFreezeTime(r, policy, i, k);
    }
    SubsetIsNoLarger(NoOlder(r.worlds[i].reg, policy, r.times[i], id), FrozenNoLonger(r, policy, i, id));
  }

  lemma RunningIsSpared(r: Run, policy: Policy, i: nat, id: Id)
    requires IsRun(r, policy) && i < |r.ops| && r.ops[i].Sweep? && id in r.worlds[i].reg
    ensures PromisedUntil(r, i, id).Some?
    ensures r.worlds[i].reg[id].state == Running && r.times[i] < PromisedUntil(r, i, id).value ==>
      Untouched(r.worlds[i], r.worlds[i + 1], id)
  {
    DeadlineIsPromise(r, policy, i, id);
    SweepStep(r, policy, i);
    SweepSparesContainer(r.worlds[i], policy, r.times[i], r.ops[i].plan, r.ops[i].sweepFaults, id);
  }

  lemma StoppedIsSpared(r: Run, policy: Policy, i: nat, id: Id)
    requires IsRun(r, policy) && i < |r.ops| && r.ops[i].Sweep? && id in r.worlds[i].reg
    ensures IsStopped(r.worlds[i].reg[id]) && id !in r.worlds[i + 1].reg ==>
      && policy.stoppedGCAfter > 0 && StopTime(r, i, id).Some?
      && r.times[i] - StopTime(r, i, id).value >= policy.stoppedGCAfter
  {
    if StoppedIn(r.worlds[i], id) {
      PausedAtIsStopTime(r, policy, i, id);
      SweepStep(r, policy, i);
      SweepSpares(r.worlds[i], policy, r.times[i], r.ops[i].plan, r.ops[i].sweepFaults, id);
    }
  }

  // Record and container are as they were.
  ghost predicate Untouched(w: World, w': World, id: Id) {
    && id in w.reg && id in w'.reg && w'.reg[id] == w.reg[id]
    && (id in w'.cs <==> id in w.cs) && (id in w.cs ==> w'.cs[id] == w.cs[id])
  }

  lemma SweepSparesContainer(w: World, policy: Policy, now: Time, plan: SweepPlan, f: SweepFaults, id: Id)
    requires PlanFor(w.reg, policy, now, plan) && id in w.reg
    ensures var w' := SweepWorld(w, plan, now, f);
      && (w.reg[id].state == Running && now < w.reg[id].expiresAt ==> Untouched(w, w', id))
      && (IsFrozen(w.reg[id]) && id in w.cs ==> id in w'.cs)
  {
    DemotedAreFrozen(w.reg, policy, now, plan);
  }

  lemma SweepStep(r: Run, policy: Policy, i: nat)
    requires IsRun(r, policy) && i < |r.ops| && r.ops[i].Sweep?
    ensures RegOk(r.worlds[i]) && PlanFor(r.worlds[i].reg, policy, r.times[i], r.ops[i].plan)
    ensures r.worlds[i + 1] == SweepWorld(r.worlds[i], r.ops[i].plan, r.times[i], r.ops[i].sweepFaults)
  {
    assert StepOk(r, policy, i);
    RunIsRegOk(r, policy, i);
  }

  // What one sweep may do to one sandbox.
  lemma SweepSpares(w: World, policy: Policy, now: Time, plan: SweepPlan, f: SweepFaults, id: Id)
    requires RegOk(w) && PlanFor(w.reg, policy, now, plan) && id in w.reg
    ensures var s := w.reg[id]; var reg := SweepReg(w, plan, now, f);
      && (s.state == Running && (id !in reg || reg[id] != s) ==> s.expiresAt <= now)
      && (IsFrozen(s) ==> id in reg)
      && (IsStopped(s) && id !in reg ==> policy.stoppedGCAfter > 0 && now - s.pausedAt >= policy.stoppedGCAfter)
      && (s.state == Running && s.profile.onTimeout == ON_TIMEOUT_PAUSE && id !in reg ==> id in f.pause)
  {
    DemotedAreFrozen(w.reg, policy, now, plan);
  }

  // Times recorded in the registry never lie ahead of the clock.
  lemma {:induction false} PausesAreInThePast(r: Run, policy: Policy, i: nat, id: Id)
    requires IsRun(r, policy) && 0 < i < |r.worlds|
    requires id in r.worlds[i].reg && r.worlds[i].reg[id].state == Paused
    ensures r.worlds[i].reg[id].pausedAt <= r.times[i - 1]
  {
    var before, op, now := r.worlds[i - 1], r.ops[i - 1], r.times[i - 1];
    RunIsRegOk(r, policy, i - 1);
    assert StepOk(r, policy, i - 1);
    StepPausedAt(before, op, policy, now, id);
    if r.worlds[i].reg[id].pausedAt != now {
      PausesAreInThePast(r, policy, i - 1, id);
    }
  }

  lemma StepPausedAt(w: World, op: Step, policy: Policy, now: Time, id: Id)
    requires RegOk(w) && Allowed(w, op, policy, now)
    requires id in ReplyTo(w, op, now).world.reg && ReplyTo(w, op, now).world.reg[id].state == Paused
    ensures var at := ReplyTo(w, op, now).world.reg[id].pausedAt;
      at == now || (!op.Restart? && id in w.reg && w.reg[id].state == Paused && at == w.reg[id].pausedAt)
  {
    if op.Sweep? { SweepPausedAt(w, op, policy, now, id); } else { OtherPausedAt(w, op, now, id); }
  }

  lemma SweepPausedAt(w: World, op: Step, policy: Policy, now: Time, id: Id)
    requires op.Sweep? && RegOk(w) && Allowed(w, op, policy, now)
    requires id in ReplyTo(w, op, now).world.reg && ReplyTo(w, op, now).world.reg[id].state == Paused
    ensures var at := ReplyTo(w, op, now).world.reg[id].pausedAt;
      at == now || (id in w.reg && w.reg[id].state == Paused && at == w.reg[id].pausedAt)
  {
    DemotedAreFrozen(w.reg, policy, now, op.plan);
  }

  lemma OtherPausedAt(w: World, op: Step, now: Time, id: Id)
    requires !op.Sweep?
    requires id in ReplyTo(w, op, now).world.reg && ReplyTo(w, op, now).world.reg[id].state == Paused
    ensures var at := ReplyTo(w, op, now).world.reg[id].pausedAt;
      at == now || (!op.Restart? && id in w.reg && w.reg[id].state == Paused && at == w.reg[id].pausedAt)
  {
  }

  // ----------------------------------------------------------------- restarts

  // What of a live profile outlasts the process.
  function Persisted(p: Profile, c: Container): Profile {
    p.(envVars := ExtractUserEnv(p.envVars), createdAt := c.spec.createdAt)
  }

  // Reading the container back gives what is persisted of each live profile.
  ghost predicate Restorable(w: World) {
    forall id | id in w.reg :: RestorableAt(w, id)
  }

  ghost predicate RestorableAt(w: World, id: Id)
    requires id in w.reg
  {
    id in w.cs && RecoveredProfile(id, w.cs[id]) == Persisted(w.reg[id].profile, w.cs[id])
  }

  function RecoveredProfile(id: Id, c: Container): Profile { Recover(Managed(id, c), ZERO_TIME, ZERO_TIME).profile }

  // No step but Create and Restart writes a profile or what a container was
  // created with.
  ghost predicate KeepsFacts(w: World, w': World) { ProfilesKept(w.reg, w'.reg) && SpecsKept(w.cs, w'.cs) }

  ghost predicate ProfilesKept(reg: Registry, reg': Registry) {
    forall id | id in reg' :: id in reg && reg'[id].profile == reg[id].profile
  }

  ghost predicate SpecsKept(cs: Containers, cs': Containers) {
    forall id | id in cs' :: id in cs && cs'[id].spec == cs[id].spec
  }

  lemma DestroyKeepsFacts(w: World, op: Step, now: Time)
    requires op.Destroy? || op.SetTimeout?
    ensures KeepsFacts(w, ReplyTo(w, op, now).world)
  {
  }

  lemma PauseKeepsFacts(w: World, id: Id, now: Time, f: Faults)
    ensures KeepsFacts(w, PauseReply(w, id, now, f).world)
  {
  }

  lemma StopKeepsFacts(w: World, id: Id, now: Time, f: Faults)
    ensures KeepsFacts(w, StopReply(w, id, now, f).world)
  {
    StopKeepsProfiles(w, id, now, f);
    StopKeepsSpecs(w, id, now, f);
  }

  lemma StopKeepsProfiles(w: World, id: Id, now: Time, f: Faults)
    ensures ProfilesKept(w.reg, StopReply(w, id, now, f).world.reg)
  {
  }

  lemma StopKeepsSpecs(w: World, id: Id, now: Time, f: Faults)
    ensures SpecsKept(w.cs, StopReply(w, id, now, f).world.cs)
  {
  }

  lemma SweepKeepsFacts(w: World, op: Step, now: Time)
    requires op.Sweep?
    ensures KeepsFacts(w, ReplyTo(w, op, now).world)
  {
  }

  lemma WakeKeepsFacts(w: World, id: Id, f: Faults)
    requires id in w.reg
    ensures KeepsFacts(w, WakeReply(w, id, f).world)
  {
    WakeKeepsProfiles(w, id, f);
    WakeKeepsSpecs(w, id, f);
  }

  lemma WakeKeepsProfiles(w: World, id: Id, f: Faults)
    requires id in w.reg
    ensures ProfilesKept(w.reg, WakeReply(w, id, f).world.reg)
  {
  }

  lemma WakeKeepsSpecs(w: World, id: Id, f: Faults)
    requires id in w.reg
    ensures SpecsKept(w.cs, WakeReply(w, id, f).world.cs)
  {
  }

  lemma FactsKeepRestorable(w: World, w': World)
    requires Restorable(w) && KeepsFacts(w, w') && w'.reg.Keys <= w'.cs.Keys
    ensures Restorable(w')
  {
    forall id | id in w'.reg
      ensures RestorableAt(w', id)
    {
      RestorableByFacts(w, w', id);
    }
  }

  lemma RestorableByFacts(w: World, w': World, id: Id)
    requires id in w.reg && id in w'.reg && RestorableAt(w, id) && id in w'.cs
    requires w'.reg[id].profile == w.reg[id].profile && w'.cs[id].spec == w.cs[id].spec
    ensures RestorableAt(w', id)
  {
  }

  lemma CreateKeepsRestorable(w: World, req: CreateRequest, now: Time, f: Faults)
    requires Restorable(w) && req.id !in w.reg && req.templateID != "" && req.onTimeout != ""
    ensures Restorable(CreateReply(w, req, now, f).world)
  {
    var w' := CreateReply(w, req, now, f).world;
    CreateFrame(w, req, now, f);
    forall id | id in w'.reg
      ensures RestorableAt(w', id)
    {
      if id == req.id { CreatedIsRestorable(req, now); } else { assert RestorableAt(w, id); }
    }
  }

  // A create adds its own record and container or leaves things as they were.
  lemma CreateFrame(w: World, req: CreateRequest, now: Time, f: Faults)
    requires req.id !in w.reg
    ensures var w' := CreateReply(w, req, now, f).world;
      && (forall id | id != req.id :: (id in w'.reg <==> id in w.reg) && (id in w.reg ==> w'.reg[id] == w.reg[id]))
      && (forall id | id != req.id :: (id in w'.cs <==> id in w.cs) && (id in w.cs ==> w'.cs[id] == w.cs[id]))
      && (req.id in w'.reg ==> req.id in w'.cs && w'.cs[req.id] == NewContainer(req, now)
                               && w'.reg[req.id] == NewSandbox(req, NewContainer(req, now).spec, now))
  {
  }

  lemma CreatedIsRestorable(req: CreateRequest, now: Time)
    requires req.templateID != "" && req.onTimeout != ""
    ensures var c := NewContainer(req, now);
      RecoveredProfile(req.id, c) == Persisted(NewSandbox(req, c.spec, now).profile, c)
  {
    RestartRoundTrip(req, now, NewContainer(req, now), ZERO_TIME, ZERO_TIME);
  }

  // Clocks and defaults do not enter the profile, and reading it twice changes
  // nothing.
  lemma RecoveredOnce(id: Id, c: Container, now: Time, defaultTimeout: Time)
    ensures var s := Recover(Managed(id, c), now, defaultTimeout);
      && s.profile == RecoveredProfile(id, c)
      && (!(c.paused && c.stopped) ==> Matches(s, c))
    ensures Persisted(RecoveredProfile(id, c), c) == RecoveredProfile(id, c)
  {
    assert ExtractUserEnv(ExtractUserEnv(c.spec.envs)) == ExtractUserEnv(c.spec.envs);
  }

  lemma RestartReads(cs: Containers, now: Time, defaultTimeout: Time)
    ensures var reg := RehydrateWorld(World(map[], cs), now, defaultTimeout).reg;
      && reg.Keys == cs.Keys
      && (forall id | id in cs :: reg[id] == Recover(Managed(id, cs[id]), now, defaultTimeout))
  {
  }

  lemma RestartRestores(cs: Containers, now: Time, defaultTimeout: Time)
    ensures var reg := RehydrateWorld(World(map[], cs), now, defaultTimeout).reg;
      && reg.Keys == cs.Keys
      && (forall id | id in cs :: reg[id].profile == RecoveredProfile(id, cs[id]))
      && (forall id | id in cs && !(cs[id].paused && cs[id].stopped) :: Matches(reg[id], cs[id]))
    ensures Restorable(RehydrateWorld(World(map[], cs), now, defaultTimeout))
  {
    RestartReads(cs, now, defaultTimeout);
    forall id | id in cs
      ensures var s := Recover(Managed(id, cs[id]), now, defaultTimeout);
        && s.profile == RecoveredProfile(id, cs[id]) == Persisted(s.profile, cs[id])
        && (!(cs[id].paused && cs[id].stopped) ==> Matches(s, cs[id]))
    {
      RecoveredOnce(id, cs[id], now, defaultTimeout);
    }
  }

  lemma ConnectKeepsFacts(w: World, id: Id, timeout: Time, now: Time, f: Faults)
    ensures KeepsFacts(w, ConnectReply(w, id, timeout, now, f).world)
  {
    if id in w.reg { WakeKeepsFacts(w.(reg := SetDeadline(w.reg, id, now + timeout)), id, f); }
  }

  lemma ResumeKeepsFacts(w: World, id: Id, f: Faults)
    ensures KeepsFacts(w, ResumeReply(w, id, f).world)
  {
    if id in w.reg { WakeKeepsFacts(w, id, f); }
  }

  lemma StepKeepsRestorable(w: World, op: Step, policy: Policy, now: Time)
    requires RegOk(w) && Restorable(w) && Allowed(w, op, policy, now)
    ensures Restorable(ReplyTo(w, op, now).world)
  {
    match op
    case Create(req, f) => CreateKeepsRestorable(w, req, now, f);
    case Restart(t) => RestartRestores(w.cs, now, t);
    case _ =>
      StepKeepsFacts(w, op, now);
      StepKeepsRegOk(w, op, policy, now);
      FactsKeepRestorable(w, ReplyTo(w, op, now).world);
  }

  lemma StepKeepsFacts(w: World, op: Step, now: Time)
    requires !op.Create? && !op.Restart?
    ensures KeepsFacts(w, ReplyTo(w, op, now).world)
  {
    match op
    case Connect(id, timeout, f) => ConnectKeepsFacts(w, id, timeout, now, f);
    case Resume(id, f) => ResumeKeepsFacts(w, id, f);
    case Sweep(_, _) => SweepKeepsFacts(w, op, now);
    case Pause(id, f) => PauseKeepsFacts(w, id, now, f);
    case Stop(id, f) => StopKeepsFacts(w, id, now, f);
    case _ => DestroyKeepsFacts(w, op, now);
  }

  lemma {:induction false} RunIsRestorable(r: Run, policy: Policy, i: nat)
    requires IsRun(r, policy) && i < |r.worlds|
    ensures Restorable(r.worlds[i])
  {
    if i > 0 {
      assert StepOk(r, policy, i - 1);
      RunIsRegOk(r, policy, i - 1);
      RunIsRestorable(r, policy, i - 1);
      StepKeepsRestorable(r.worlds[i - 1], r.ops[i - 1], policy, r.times[i - 1]);
    }
  }

  // Restarting anywhere in a run: the new registry holds exactly the runtime's
  // containers, every sandbox that was registered is back with its profile
  // (bar environment keys with the bootstrap prefix), and each is recorded as
  // its container is.
  lemma RestartRecovers(r: Run, policy: Policy, i: nat)
    requires IsRun(r, policy) && i < |r.ops| && r.ops[i].Restart?
    ensures var w, w' := r.worlds[i], r.worlds[i + 1];
      && w'.cs == w.cs && w'.reg.Keys == w.cs.Keys
      && (forall id | id in w.reg :: id in w'.reg && w'.reg[id].profile == Persisted(w.reg[id].profile, w.cs[id]))
      && (forall id | id in w'.reg && !(w.cs[id].paused && w.cs[id].stopped) :: Matches(w'.reg[id], w.cs[id]))
  {
    assert StepOk(r, policy, i);
    RunIsRestorable(r, policy, i);
    RestartRestores(r.worlds[i].cs, r.times[i], r.ops[i].defaultTimeout);
  }
}
