// The data the sandbox manager works on, its lock regions as functions on the
// registry, and the runtime calls of the in-memory runtime as functions on the
// set of containers. The classes in NoopRuntime.dfy and SandboxManager.dfy and
// the interleaving machine in SandboxConcurrency.dfy are all built from these.
module SandboxModel {
  import opened Common

  type Id = string
  type Time = int

  // ---------------------------------------------------------------- registry

  datatype State = Running | Paused
  datatype PauseMode = NoMode | Frozen | Stopped

  const ON_TIMEOUT_KILL := "kill"
  const ON_TIMEOUT_PAUSE := "pause"

  const ZERO_TIME: Time := 0
  const DEFAULT_TIMEOUT: Time := 5 * 60 * 1_000_000_000
  const DEFAULT_AGENT_PORT := 49983

  // The fields fixed when a sandbox is created.
  datatype Profile = Profile(
    templateID: string, alias: string, containerID: string,
    envdToken: string, trafficToken: string, onTimeout: string,
    metadata: map<string, string>, envVars: map<string, string>,
    createdAt: Time, cpuCount: int, memoryMB: int)

  datatype Sandbox = Sandbox(
    profile: Profile, agentHost: string, agentPort: int,
    state: State, pauseMode: PauseMode, pausedAt: Time, expiresAt: Time)

  type Registry = map<Id, Sandbox>

  datatype Policy = Policy(freezeDuration: Time, maxFrozen: int, stoppedGCAfter: Time)

  // -------------------------------------------------------------- containers

  datatype ContainerSpec = ContainerSpec(
    containerID: string, agentHost: string, agentPort: int, createdAt: Time, image: string,
    envs: map<string, string>, labels: map<string, string>,
    startCmd: string, readyCmd: string, cpuCount: int, memoryMB: int)

  datatype Container = Container(spec: ContainerSpec, paused: bool, stopped: bool)

  type Containers = map<Id, Container>

  // A create request after defaults, template resolution and id minting.
  datatype CreateRequest = CreateRequest(
    id: Id, templateID: string, alias: string, envdToken: string, trafficToken: string,
    onTimeout: string, metadata: map<string, string>, envVars: map<string, string>,
    timeout: Time, image: string, startCmd: string, readyCmd: string,
    cpuCount: int, memoryMB: int, agentPort: int)

  // ------------------------------------------------------------------ labels

  const LABEL_TEMPLATE_ID := "edvabe.sandbox.template.id"
  const LABEL_TEMPLATE_ALIAS := "edvabe.sandbox.template.alias"
  const LABEL_TOKEN_ENVD := "edvabe.sandbox.token.envd"
  const LABEL_TOKEN_TRAFFIC := "edvabe.sandbox.token.traffic"
  const LABEL_ON_TIMEOUT := "edvabe.sandbox.ontimeout"
  const LABEL_IMAGE_TEMPLATE_ID := "edvabe.template.id"
  const LABEL_META_PREFIX := "edvabe.meta."
  const ENV_PREFIX := "EDVABE_"

  function SandboxLabels(req: CreateRequest): map<string, string> {
    map[LABEL_TEMPLATE_ID := req.templateID,
        LABEL_TOKEN_ENVD := req.envdToken,
        LABEL_TOKEN_TRAFFIC := req.trafficToken]
    + (if req.alias != "" then map[LABEL_TEMPLATE_ALIAS := req.alias] else map[])
    + (if req.onTimeout != "" then map[LABEL_ON_TIMEOUT := req.onTimeout] else map[])
  }

  function MetaKey(name: string): string { LABEL_META_PREFIX + name }

  predicate IsMetaKey(key: string) { HasPrefix(key, LABEL_META_PREFIX) }

  function MetaName(key: string): string
    requires IsMetaKey(key)
  {
    key[|LABEL_META_PREFIX|..]
  }

  lemma MetaKeyInverse()
    ensures forall name :: IsMetaKey(MetaKey(name)) && MetaName(MetaKey(name)) == name
    ensures forall key | IsMetaKey(key) :: MetaKey(MetaName(key)) == key
  {
  }

  // The runtime adds one label per metadata entry, winning over the caller's.
  function StampMetadata(labels: map<string, string>, metadata: map<string, string>): map<string, string> {
    map k | k in labels.Keys + (set m | m in metadata :: MetaKey(m)) && (k in labels || (IsMetaKey(k) &&
        MetaName(k) in metadata))
      :: if IsMetaKey(k) && MetaName(k) in metadata then metadata[MetaName(k)] else labels[k]
  }

  // ----------------------------------------------------------- runtime calls

  datatype RtResult = RtResult(ok: bool, containers: Containers)

  function NewContainer(req: CreateRequest, now: Time): Container {
    Container(
      ContainerSpec(
        "noop-" + req.id, "127.0.0.1",
        if req.agentPort == 0 then DEFAULT_AGENT_PORT else req.agentPort, now, req.image,
        req.envVars, StampMetadata(SandboxLabels(req), req.metadata),
        req.startCmd, req.readyCmd, req.cpuCount, req.memoryMB),
      false, false)
  }

  // Every call takes a flag `fail`: a failure of the runtime that has no effect.
  function RtCreate(cs: Containers, req: CreateRequest, now: Time, fail: bool): RtResult {
    if fail || req.id == "" || req.id in cs then RtResult(false, cs)
    else RtResult(true, cs[req.id := NewContainer(req, now)])
  }

  function RtDestroy(cs: Containers, id: Id, fail: bool): RtResult {
    if fail || id !in cs then RtResult(false, cs) else RtResult(true, cs - {id})
  }

  function RtPause(cs: Containers, id: Id, fail: bool): RtResult {
    if fail || id !in cs then RtResult(false, cs)
    else RtResult(true, cs[id := cs[id].(paused := true)])
  }

  function RtUnpause(cs: Containers, id: Id, fail: bool): RtResult {
    if fail || id !in cs then RtResult(false, cs)
    else RtResult(true, cs[id := cs[id].(paused := false)])
  }

  function RtStop(cs: Containers, id: Id, fail: bool): RtResult {
    if fail || id !in cs then RtResult(false, cs)
    else RtResult(true, cs[id := cs[id].(stopped := true, paused := false)])
  }

  function RtStart(cs: Containers, id: Id, fail: bool): RtResult {
    if fail || id !in cs then RtResult(false, cs)
    else RtResult(true, cs[id := cs[id].(stopped := false)])
  }

  // ------------------------------------------------------------ lock regions

  function NewSandbox(req: CreateRequest, spec: ContainerSpec, now: Time): Sandbox {
    Sandbox(
      Profile(req.templateID, req.alias, spec.containerID, req.envdToken, req.trafficToken,
              req.onTimeout, req.metadata, req.envVars, now, req.cpuCount, req.memoryMB),
      spec.agentHost, spec.agentPort, Running, NoMode, ZERO_TIME, now + req.timeout)
  }

  // The Mark regions write through a pointer to the record, so they have no
  // effect on the registry once the record has been removed from it.
  function MarkRunning(reg: Registry, id: Id): Registry {
    if id in reg then reg[id := reg[id].(state := Running, pauseMode := NoMode, pausedAt := ZERO_TIME)] else reg
  }

  function MarkFrozen(reg: Registry, id: Id, now: Time): Registry {
    if id in reg then reg[id := reg[id].(state := Paused, pauseMode := Frozen, pausedAt := now)] else reg
  }

  function MarkStopped(reg: Registry, id: Id, now: Time): Registry {
    if id in reg then reg[id := reg[id].(state := Paused, pauseMode := Stopped, pausedAt := now)] else reg
  }

  // Demotion leaves the state field alone.
  function MarkDemoted(reg: Registry, id: Id, now: Time): Registry {
    if id in reg then reg[id := reg[id].(pauseMode := Stopped, pausedAt := now)] else reg
  }

  function SetDeadline(reg: Registry, id: Id, deadline: Time): Registry {
    if id in reg then reg[id := reg[id].(expiresAt := deadline)] else reg
  }

  function SetAgent(reg: Registry, id: Id, host: string, port: int): Registry {
    if id in reg then reg[id := reg[id].(agentHost := host, agentPort := port)] else reg
  }

  // The record tells the truth about the container.
  predicate Matches(s: Sandbox, c: Container) {
    match (s.state, s.pauseMode)
    case (Running, NoMode) => !c.paused && !c.stopped
    case (Paused, Frozen) => c.paused && !c.stopped
    case (Paused, Stopped) => !c.paused && c.stopped
    case _ => false
  }

  // Only running sandboxes have a deadline that can pass.
  predicate Lapsed(s: Sandbox, now: Time) {
    s.state != Paused && s.expiresAt <= now
  }

  // ------------------------------------------------------------------- sweep

  predicate IsFrozen(s: Sandbox) { s.state == Paused && s.pauseMode == Frozen }

  predicate IsStopped(s: Sandbox) { s.state == Paused && s.pauseMode == Stopped }

  predicate DueToPause(s: Sandbox, now: Time) {
    Lapsed(s, now) && s.profile.onTimeout == ON_TIMEOUT_PAUSE
  }

  predicate DueToKill(s: Sandbox, now: Time) {
    Lapsed(s, now) && s.profile.onTimeout != ON_TIMEOUT_PAUSE
  }

  predicate Aged(s: Sandbox, policy: Policy, now: Time) {
    IsFrozen(s) && policy.freezeDuration > 0 && now - s.pausedAt >= policy.freezeDuration
  }

  predicate DueToGC(s: Sandbox, policy: Policy, now: Time) {
    IsStopped(s) && policy.stoppedGCAfter > 0 && now - s.pausedAt >= policy.stoppedGCAfter
  }

  // Frozen sandboxes not yet due by age: the ones the cap counts.
  function FreshFrozen(reg: Registry, policy: Policy, now: Time): set<Id> {
    set id | id in reg && IsFrozen(reg[id]) && !Aged(reg[id], policy, now)
  }

  function AgedFrozen(reg: Registry, policy: Policy, now: Time): set<Id> {
    set id | id in reg && Aged(reg[id], policy, now)
  }

  function Excess(count: nat, policy: Policy): nat {
    if policy.maxFrozen > 0 && count > policy.maxFrozen then count - policy.maxFrozen else 0
  }

  // The four work lists one sweep builds under the lock; each id is listed at
  // most once, in an order the map iteration leaves open.
  datatype SweepPlan = SweepPlan(kill: set<Id>, pause: set<Id>, demote: set<Id>, gc: set<Id>)

  // What the sweep promises about its lists, whatever order the map is walked
  // in and however the sort breaks ties: the victims of the cap are some
  // smallest set of longest-paused sandboxes that brings the count to the cap.
  ghost predicate PlanFor(reg: Registry, policy: Policy, now: Time, plan: SweepPlan) {
    && plan.kill == (set id | id in reg && DueToKill(reg[id], now))
    && plan.pause == (set id | id in reg && DueToPause(reg[id], now))
    && plan.gc == (set id | id in reg && DueToGC(reg[id], policy, now))
    && CapRespected(reg, policy, now, plan.demote)
  }

  ghost predicate CapRespected(reg: Registry, policy: Policy, now: Time, demote: set<Id>) {
    var young := FreshFrozen(reg, policy, now);
    var aged := AgedFrozen(reg, policy, now);
    var victims := demote - aged;
    && aged <= demote
    && victims <= young
    && |victims| == Excess(|young|, policy)
    && forall v, k | v in victims && k in young - victims :: reg[v].pausedAt <= reg[k].pausedAt
  }

  lemma DemotedAreFrozen(reg: Registry, policy: Policy, now: Time, plan: SweepPlan)
    requires PlanFor(reg, policy, now, plan)
    ensures plan.demote <= reg.Keys && forall id | id in plan.demote :: IsFrozen(reg[id])
  {
    forall id | id in plan.demote ensures id in reg && IsFrozen(reg[id]) {
      if id !in AgedFrozen(reg, policy, now) {
        assert id in plan.demote - AgedFrozen(reg, policy, now);
      }
    }
  }

  lemma PlanIsRegistered(reg: Registry, policy: Policy, now: Time, plan: SweepPlan)
    requires PlanFor(reg, policy, now, plan)
    ensures plan.kill + plan.pause + plan.demote + plan.gc <= reg.Keys
  {
    DemotedAreFrozen(reg, policy, now, plan);
  }

  // The registry as the sweep's first lock region leaves it.
  function AfterPlanning(reg: Registry, plan: SweepPlan): Registry {
    reg - (plan.kill + plan.gc)
  }
}
