// Each manager operation run on its own, as a function from the registry and
// the containers before it to those after it.
module SandboxOps {
  import opened Common
  import opened SandboxModel
  import opened Rehydration

  datatype World = World(reg: Registry, cs: Containers)

  datatype Answer = Success | ErrNotFound | ErrExpired | ErrRuntime

  datatype Reply = Reply(world: World, answer: Answer)

  // Which of the calls an operation makes fail, without effect.
  datatype Faults = Faults(
    create: bool, ping: bool, init: bool, ready: bool, destroy: bool,
    pause: bool, unpause: bool, stop: bool, start: bool, endpoint: bool)

  // The same for a sweep, which makes one call of each kind per sandbox.
  datatype SweepFaults = SweepFaults(destroy: set<Id>, pause: set<Id>, stop: set<Id>)

  // ------------------------------------------------------------------ create

  datatype CreateOptions = CreateOptions(
    templateID: string, alias: string, metadata: map<string, string>, envVars: map<string, string>,
    timeout: Time, onTimeout: string, cpuCount: int, memoryMB: int)

  datatype Resolution = Resolution(imageTag: string, startCmd: string, readyCmd: string, cpuCount: int, memoryMB: int)

  // A positive override wins, a negative one asks for no limit.
  function Limit(override: int, fromTemplate: int): int {
    if override > 0 then override else if override < 0 then 0 else fromTemplate
  }

  function ResolveRequest(opts: CreateOptions, res: Resolution, id: Id, envdToken: string, trafficToken: string,
                          agentPort: int): CreateRequest {
    CreateRequest(
      id, if opts.templateID == "" then "base" else opts.templateID, opts.alias, envdToken, trafficToken,
      if opts.onTimeout == "" then ON_TIMEOUT_KILL else opts.onTimeout, opts.metadata, opts.envVars,
      if opts.timeout <= 0 then DEFAULT_TIMEOUT else opts.timeout, res.imageTag, res.startCmd, res.readyCmd,
      Limit(opts.cpuCount, res.cpuCount), Limit(opts.memoryMB, res.memoryMB), agentPort)
  }

  function CreateReply(w: World, req: CreateRequest, now: Time, f: Faults): Reply {
    var r := RtCreate(w.cs, req, now, f.create);
    if !r.ok then Reply(w, ErrRuntime)
    else if f.ping || f.init || (req.readyCmd != "" && f.ready) then
      Reply(World(w.reg, RtDestroy(r.containers, req.id, f.destroy).containers), ErrRuntime)
    else
      Reply(World(w.reg[req.id := NewSandbox(req, r.containers[req.id].spec, now)], r.containers), Success)
  }

  // ------------------------------------------------------ single-sandbox calls

  function DestroyReply(w: World, id: Id, f: Faults): Reply {
    if id !in w.reg then Reply(w, ErrNotFound)
    else
      var r := RtDestroy(w.cs, id, f.destroy);
      Reply(World(w.reg - {id}, r.containers), if r.ok then Success else ErrRuntime)
  }

  function SetTimeoutReply(w: World, id: Id, timeout: Time, now: Time): Reply {
    if id !in w.reg then Reply(w, ErrNotFound)
    else if Lapsed(w.reg[id], now) then Reply(w, ErrExpired)
    else Reply(w.(reg := SetDeadline(w.reg, id, now + timeout)), Success)
  }

  // Boot a stopped container, or thaw a frozen one, and mark it running.
  function WakeReply(w: World, id: Id, f: Faults): Reply
    requires id in w.reg
  {
    if w.reg[id].pauseMode == Stopped then
      var r := RtStart(w.cs, id, f.start);
      var w1 := w.(cs := r.containers);
      if !r.ok || f.endpoint || f.ping || f.init then Reply(w1, ErrRuntime)
      else
        var spec := r.containers[id].spec;
        Reply(w1.(reg := MarkRunning(SetAgent(w.reg, id, spec.agentHost, spec.agentPort), id)), Success)
    else
      var r := RtUnpause(w.cs, id, f.unpause);
      if !r.ok then Reply(w, ErrRuntime)
      else Reply(World(MarkRunning(w.reg, id), r.containers), Success)
  }

  function ConnectReply(w: World, id: Id, timeout: Time, now: Time, f: Faults): Reply {
    if id !in w.reg then Reply(w, ErrNotFound)
    else if Lapsed(w.reg[id], now) then Reply(w, ErrExpired)
    else
      var w1 := w.(reg := SetDeadline(w.reg, id, now + timeout));
      if w.reg[id].state != Paused then Reply(w1, Success) else WakeReply(w1, id, f)
  }

  function ResumeReply(w: World, id: Id, f: Faults): Reply {
    if id !in w.reg then Reply(w, ErrNotFound)
    else if w.reg[id].state != Paused then Reply(w, Success)
    else WakeReply(w, id, f)
  }

  function PauseReply(w: World, id: Id, now: Time, f: Faults): Reply {
    if id !in w.reg then Reply(w, ErrNotFound)
    else if w.reg[id].state == Paused then Reply(w, Success)
    else
      var r := RtPause(w.cs, id, f.pause);
      if !r.ok then Reply(w, ErrRuntime) else Reply(World(MarkFrozen(w.reg, id, now), r.containers), Success)
  }

  function StopReply(w: World, id: Id, now: Time, f: Faults): Reply {
    if id !in w.reg then Reply(w, ErrNotFound)
    else if IsStopped(w.reg[id]) then Reply(w, Success)
    else
      var thaw := if w.reg[id].pauseMode == Frozen then RtUnpause(w.cs, id, f.unpause) else RtResult(true, w.cs);
      if !thaw.ok then Reply(w, ErrRuntime)
      else
        var r := RtStop(thaw.containers, id, f.stop);
        if !r.ok then Reply(World(w.reg, r.containers), ErrRuntime)
        else Reply(World(MarkStopped(w.reg, id, now), r.containers), Success)
  }

  // ------------------------------------------------------------------- sweep

  predicate CallOk(cs: Containers, id: Id, fails: set<Id>) { id in cs && id !in fails }

  // Ids the sweep takes out of the registry.
  function Discarded(cs: Containers, plan: SweepPlan, f: SweepFaults): set<Id> {
    plan.kill + plan.gc + set id | id in plan.pause && !CallOk(cs, id, f.pause)
  }

  function SweepReg(w: World, plan: SweepPlan, now: Time, f: SweepFaults): Registry {
    map id | id in w.reg && id !in Discarded(w.cs, plan, f) ::
      if id in plan.pause then w.reg[id].(state := Paused, pauseMode := Frozen, pausedAt := now)
      else if id in plan.demote && CallOk(w.cs, id, f.stop) then w.reg[id].(pauseMode := Stopped, pausedAt := now)
      else w.reg[id]
  }

  function SweepCs(cs: Containers, plan: SweepPlan, f: SweepFaults): Containers {
    map id | id in cs && (id in Discarded(cs, plan, f) ==> id in f.destroy) ::
      if id in plan.pause && CallOk(cs, id, f.pause) then cs[id].(paused := true)
      else if id in plan.demote && CallOk(cs, id, f.stop) then cs[id].(stopped := true, paused := false)
      else cs[id]
  }

  function SweepWorld(w: World, plan: SweepPlan, now: Time, f: SweepFaults): World {
    World(SweepReg(w, plan, now, f), SweepCs(w.cs, plan, f))
  }

  // The ids a sweep reports: all but the demotions that failed.
  function Touched(cs: Containers, plan: SweepPlan, f: SweepFaults): set<Id> {
    plan.kill + plan.pause + plan.gc + set id | id in plan.demote && CallOk(cs, id, f.stop)
  }

  // ----------------------------------------------------------------- restart

  function RehydrateWorld(w: World, now: Time, defaultTimeout: Time): World {
    w.(reg := RehydrateFrom(w.reg, ListManaged(w.cs), now, defaultTimeout))
  }
}
