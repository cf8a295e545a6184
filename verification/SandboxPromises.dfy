// What each manager operation promises its caller, told field by field. The
// operations are functions built from smaller ones; here nothing but records,
// containers, the options given and the calls that fail is spoken of.
module SandboxPromises {
  import opened Common
  import opened SandboxModel
  import opened Rehydration
  import opened SandboxOps

  // Every other sandbox, and every other container, is as it was.
  ghost predicate OthersKept(before: World, after: World, id: Id) {
    && (forall k | k != id ::
          (k in after.reg <==> k in before.reg) && (k in before.reg ==> after.reg[k] == before.reg[k]))
    && (forall k | k != id ::
          (k in after.cs <==> k in before.cs) && (k in before.cs ==> after.cs[k] == before.cs[k]))
  }

  // ------------------------------------------------------------------ create

  // A limit is fixed by the sign of its override.
  ghost predicate LimitAsAsked(limit: int, override: int, fromTemplate: int) {
    && (override > 0 ==> limit == override)
    && (override < 0 ==> limit == 0)
    && (override == 0 ==> limit == fromTemplate)
  }

  ghost predicate RecordAsAsked(s: Sandbox, o: CreateOptions, t: Resolution, envdToken: string, trafficToken: string,
                                now: Time)
  {
    && s.profile.envdToken == envdToken && s.profile.trafficToken == trafficToken
    && s.profile.templateID == (if o.templateID == "" then "base" else o.templateID)
    && s.profile.onTimeout == (if o.onTimeout == "" then "kill" else o.onTimeout)
    && s.profile.alias == o.alias && s.profile.metadata == o.metadata && s.profile.envVars == o.envVars
    && LimitAsAsked(s.profile.cpuCount, o.cpuCount, t.cpuCount)
    && LimitAsAsked(s.profile.memoryMB, o.memoryMB, t.memoryMB)
    && s.profile.createdAt == now && s.state == Running && s.pauseMode == NoMode
    && s.expiresAt == now + if o.timeout <= 0 then 300_000_000_000 else o.timeout
  }

  ghost predicate ContainerAsAsked(c: Container, o: CreateOptions, t: Resolution, agentPort: int) {
    && !c.paused && !c.stopped
    && c.spec.image == t.imageTag && c.spec.startCmd == t.startCmd && c.spec.readyCmd == t.readyCmd
    && c.spec.envs == o.envVars
    && LimitAsAsked(c.spec.cpuCount, o.cpuCount, t.cpuCount)
    && LimitAsAsked(c.spec.memoryMB, o.memoryMB, t.memoryMB)
    && c.spec.agentPort == if agentPort == 0 then 49983 else agentPort
  }

  // The labels a restart reads the facts back from.
  ghost predicate LabelsAsAsked(labels: map<string, string>, o: CreateOptions, envdToken: string,
                                trafficToken: string)
  {
    && Lookup(labels, "edvabe.sandbox.token.envd") == envdToken
    && Lookup(labels, "edvabe.sandbox.token.traffic") == trafficToken
    && Lookup(labels, "edvabe.sandbox.template.id") == (if o.templateID == "" then "base" else o.templateID)
    && Lookup(labels, "edvabe.sandbox.template.alias") == o.alias
    && Lookup(labels, "edvabe.sandbox.ontimeout") == (if o.onTimeout == "" then "kill" else o.onTimeout)
    && forall m | m in o.metadata :: Lookup(labels, "edvabe.meta." + m) == o.metadata[m]
  }

  ghost predicate CreatePromise(before: World, after: World, answer: Answer, o: CreateOptions, t: Resolution, id: Id,
                                envdToken: string, trafficToken: string, agentPort: int, now: Time, f: Faults) {
    && OthersKept(before, after, id)
    && (answer == Success <==>
          && id != "" && id !in before.cs && !f.create
          && !f.ping && !f.init && (t.readyCmd == "" || !f.ready))
    && (answer == Success ==>
          && id in after.reg && id in after.cs
          && var s, c := after.reg[id], after.cs[id];
             && RecordAsAsked(s, o, t, envdToken, trafficToken, now)
             && ContainerAsAsked(c, o, t, agentPort)
             && LabelsAsAsked(c.spec.labels, o, envdToken, trafficToken)
             && s.agentHost == c.spec.agentHost && s.agentPort == c.spec.agentPort
             && s.profile.containerID == c.spec.containerID)
    && (answer != Success ==>
          && answer == ErrRuntime && after.reg == before.reg
          && (id in after.cs <==> id in before.cs || (id != "" && !f.create && f.destroy)))
    && (id in before.cs ==> after.cs == before.cs)
  }

  lemma RequestRecord(o: CreateOptions, t: Resolution, id: Id, envdToken: string, trafficToken: string, agentPort: int,
                      now: Time)
    ensures var req := ResolveRequest(o, t, id, envdToken, trafficToken, agentPort);
            RecordAsAsked(NewSandbox(req, NewContainer(req, now).spec, now), o, t, envdToken, trafficToken, now)
  {
  }

  lemma RequestContainer(o: CreateOptions, t: Resolution, id: Id, envdToken: string, trafficToken: string,
                         agentPort: int, now: Time)
    ensures var req := ResolveRequest(o, t, id, envdToken, trafficToken, agentPort);
            ContainerAsAsked(NewContainer(req, now), o, t, agentPort)
  {
  }

  lemma RequestLabels(o: CreateOptions, t: Resolution, id: Id, envdToken: string, trafficToken: string, agentPort: int,
                      now: Time)
    ensures var req := ResolveRequest(o, t, id, envdToken, trafficToken, agentPort);
            LabelsAsAsked(NewContainer(req, now).spec.labels, o, envdToken, trafficToken)
  {
    var req := ResolveRequest(o, t, id, envdToken, trafficToken, agentPort);
    OwnLabels(req);
    OwnKeysAreNotMeta();
    LabelsReadBack(req, SandboxLabels(req));
    StampMeaning(SandboxLabels(req), req.metadata);
    var labels := NewContainer(req, now).spec.labels;
    forall m | m in o.metadata
      ensures Lookup(labels, "edvabe.meta." + m) == o.metadata[m]
    {
      assert "edvabe.meta." + m == MetaKey(m);
    }
  }

  lemma CreateKeepsPromise(w: World, o: CreateOptions, t: Resolution, id: Id, envdToken: string, trafficToken: string,
                           agentPort: int, now: Time, f: Faults)
    ensures var r := CreateReply(w, ResolveRequest(o, t, id, envdToken, trafficToken, agentPort), now, f);
            CreatePromise(w, r.world, r.answer, o, t, id, envdToken, trafficToken, agentPort, now, f)
  {
    RequestRecord(o, t, id, envdToken, trafficToken, agentPort, now);
    RequestContainer(o, t, id, envdToken, trafficToken, agentPort, now);
    RequestLabels(o, t, id, envdToken, trafficToken, agentPort, now);
  }

  // ------------------------------------------------------ single-sandbox calls

  ghost predicate DestroyPromise(before: World, after: World, answer: Answer, id: Id, f: Faults) {
    && OthersKept(before, after, id)
    && (answer == ErrNotFound <==> id !in before.reg)
    && (answer == Success <==> id in before.reg && id in before.cs && !f.destroy)
    && answer != ErrExpired
    && (answer == ErrNotFound ==> after == before)
    && id !in after.reg
    && (id in after.cs <==> id in before.cs && answer != Success)
    && (id in after.cs ==> after.cs[id] == before.cs[id])
  }

  lemma DestroyKeepsPromise(w: World, id: Id, f: Faults)
    ensures var r := DestroyReply(w, id, f); DestroyPromise(w, r.world, r.answer, id, f)
  {
  }

  // A running sandbox whose deadline has come cannot be extended.
  ghost predicate ExtendPromise(before: World, answer: Answer, id: Id, now: Time) {
    && (answer == ErrNotFound <==> id !in before.reg)
    && (answer == ErrExpired <==>
          id in before.reg && before.reg[id].state == Running && before.reg[id].expiresAt <= now)
  }

  ghost predicate SetTimeoutPromise(before: World, after: World, answer: Answer, id: Id, timeout: Time, now: Time) {
    && ExtendPromise(before, answer, id, now)
    && answer != ErrRuntime
    && (answer != Success ==> after == before)
    && (answer == Success ==>
          && after.cs == before.cs && id in before.reg
          && after.reg == before.reg[id := before.reg[id].(expiresAt := now + timeout)])
  }

  lemma SetTimeoutKeepsPromise(w: World, id: Id, timeout: Time, now: Time)
    ensures var r := SetTimeoutReply(w, id, timeout, now); SetTimeoutPromise(w, r.world, r.answer, id, timeout, now)
  {
  }

  // Waking a paused sandbox. A stopped one is booted: its container starts even
  // if the agent then does not answer, but it is recorded, under the address it
  // came up on, only if everything worked. Any other is thawed.
  ghost predicate WakePromise(before: World, after: World, answer: Answer, id: Id, f: Faults)
    requires id in before.reg
  {
    var s := before.reg[id];
    var boot := s.pauseMode == Stopped;
    && OthersKept(before, after, id)
    && answer == (if id in before.cs && (if boot then !f.start && !f.endpoint && !f.ping && !f.init else !f.unpause)
                  then Success else ErrRuntime)
    && (id in after.cs <==> id in before.cs)
    && (id in before.cs ==>
          after.cs[id] == if boot then (if f.start then before.cs[id] else before.cs[id].(stopped := false))
                          else if f.unpause then before.cs[id] else before.cs[id].(paused := false))
    && id in after.reg
    && (answer != Success ==> after.reg[id] == s)
    && (answer == Success && boot ==>
          after.reg[id] == s.(state := Running, pauseMode := NoMode, pausedAt := 0,
                              agentHost := before.cs[id].spec.agentHost, agentPort := before.cs[id].spec.agentPort))
    && (answer == Success && !boot ==> after.reg[id] == s.(state := Running, pauseMode := NoMode, pausedAt := 0))
  }

  lemma WakeKeepsPromise(w: World, id: Id, f: Faults)
    requires id in w.reg
    ensures var r := WakeReply(w, id, f); WakePromise(w, r.world, r.answer, id, f)
  {
  }

  ghost predicate ConnectPromise(before: World, after: World, answer: Answer, id: Id, timeout: Time, now: Time,
                                 f: Faults)
  {
    && ExtendPromise(before, answer, id, now)
    && (answer == ErrNotFound || answer == ErrExpired ==> after == before)
    && (answer != ErrNotFound && answer != ErrExpired ==>
          && id in before.reg
          && var extended := before.(reg := before.reg[id := before.reg[id].(expiresAt := now + timeout)]);
             if before.reg[id].state == Running then answer == Success && after == extended
             else WakePromise(extended, after, answer, id, f))
  }

  lemma ConnectKeepsPromise(w: World, id: Id, timeout: Time, now: Time, f: Faults)
    ensures var r := ConnectReply(w, id, timeout, now, f); ConnectPromise(w, r.world, r.answer, id, timeout, now, f)
  {
    if id in w.reg { WakeKeepsPromise(w.(reg := w.reg[id := w.reg[id].(expiresAt := now + timeout)]), id, f); }
  }

  ghost predicate ResumePromise(before: World, after: World, answer: Answer, id: Id, f: Faults) {
    && (answer == ErrNotFound <==> id !in before.reg)
    && (id !in before.reg ==> after == before)
    && (id in before.reg && before.reg[id].state == Running ==> answer == Success && after == before)
    && (id in before.reg && before.reg[id].state == Paused ==> WakePromise(before, after, answer, id, f))
  }

  lemma ResumeKeepsPromise(w: World, id: Id, f: Faults)
    ensures var r := ResumeReply(w, id, f); ResumePromise(w, r.world, r.answer, id, f)
  {
    if id in w.reg { WakeKeepsPromise(w, id, f); }
  }

  ghost predicate PausePromise(before: World, after: World, answer: Answer, id: Id, now: Time, f: Faults) {
    && OthersKept(before, after, id)
    && (answer == ErrNotFound <==> id !in before.reg)
    && (answer == Success <==> id in before.reg && (before.reg[id].state == Paused || (id in before.cs && !f.pause)))
    && answer != ErrExpired
    && (answer != Success || before.reg[id].state == Paused ==> after == before)
    && (answer == Success && before.reg[id].state == Running ==>
          && id in after.reg && id in after.cs
          && after.reg[id] == before.reg[id].(state := Paused, pauseMode := Frozen, pausedAt := now)
          && after.cs[id] == before.cs[id].(paused := true))
  }

  lemma PauseKeepsPromise(w: World, id: Id, now: Time, f: Faults)
    ensures var r := PauseReply(w, id, now, f); PausePromise(w, r.world, r.answer, id, now, f)
  {
  }

  // A frozen container is thawed first, and stays thawed if it then cannot be
  // stopped; the record changes only if it could.
  ghost predicate StopPromise(before: World, after: World, answer: Answer, id: Id, now: Time, f: Faults) {
    && OthersKept(before, after, id)
    && (answer == ErrNotFound <==> id !in before.reg)
    && answer != ErrExpired
    && (id in before.reg ==>
          var s := before.reg[id];
          var already, thaws := s.state == Paused && s.pauseMode == Stopped, s.pauseMode == Frozen;
          && (answer == Success <==> already || (id in before.cs && !(thaws && f.unpause) && !f.stop))
          && (already ==> after == before)
          && id in after.reg && (id in after.cs <==> id in before.cs)
          && (!already && answer == Success ==>
                && after.reg[id] == s.(state := Paused, pauseMode := Stopped, pausedAt := now)
                && after.cs[id] == before.cs[id].(stopped := true, paused := false))
          && (!already && answer != Success ==>
                && after.reg[id] == s
                && (id in before.cs ==>
                      after.cs[id] == if thaws && !f.unpause then before.cs[id].(paused := false) else before.cs[id])))
    && (id !in before.reg ==> after == before)
  }

  lemma StopKeepsPromise(w: World, id: Id, now: Time, f: Faults)
    ensures var r := StopReply(w, id, now, f); StopPromise(w, r.world, r.answer, id, now, f)
  {
  }

  // ------------------------------------------------------------------- sweep

  ghost predicate FrozenAt(reg: Registry, id: Id) {
    id in reg && reg[id].state == Paused && reg[id].pauseMode == Frozen
  }

  // The freeze period has passed.
  ghost predicate PeriodOver(reg: Registry, policy: Policy, now: Time, id: Id)
    requires id in reg
  {
    policy.freezeDuration > 0 && now >= reg[id].pausedAt + policy.freezeDuration
  }

  // Frozen sandboxes still inside their period.
  ghost function Young(reg: Registry, policy: Policy, now: Time): set<Id> {
    set id | id in reg && FrozenAt(reg, id) && !PeriodOver(reg, policy, now, id)
  }

  // The frozen sandboxes a sweep sets out to stop: all whose period is over, and
  // of the others as many of the longest paused as there are beyond the cap.
  ghost predicate VictimsPromise(reg: Registry, policy: Policy, now: Time, victims: set<Id>) {
    var young := Young(reg, policy, now);
    && (forall id | id in victims :: FrozenAt(reg, id))
    && (forall id | FrozenAt(reg, id) && PeriodOver(reg, policy, now, id) :: id in victims)
    && |victims * young|
       == (if policy.maxFrozen > 0 && |young| > policy.maxFrozen then |young| - policy.maxFrozen else 0)
    && forall v, k | v in victims * young && k in young - victims :: reg[v].pausedAt <= reg[k].pausedAt
  }

  ghost predicate Kept(before: World, after: World, id: Id) {
    && (id in after.reg <==> id in before.reg) && (id in before.reg ==> after.reg[id] == before.reg[id])
    && (id in after.cs <==> id in before.cs) && (id in before.cs ==> after.cs[id] == before.cs[id])
  }

  // Out of the registry; the container is gone too unless it could not be
  // destroyed.
  ghost predicate Gone(before: World, after: World, id: Id, f: SweepFaults) {
    && id !in after.reg
    && (id in after.cs <==> id in before.cs && id in f.destroy)
    && (id in after.cs ==> after.cs[id] == before.cs[id])
  }

  ghost predicate Expired(reg: Registry, now: Time, id: Id) {
    id in reg && reg[id].state == Running && reg[id].expiresAt <= now
  }

  ghost predicate Collected(reg: Registry, policy: Policy, now: Time, id: Id) {
    && id in reg && reg[id].state == Paused && reg[id].pauseMode == Stopped
    && policy.stoppedGCAfter > 0 && now >= reg[id].pausedAt + policy.stoppedGCAfter
  }

  // What a sweep does to one sandbox.
  ghost predicate SweptOne(before: World, after: World, policy: Policy, now: Time, victims: set<Id>, f: SweepFaults,
                           id: Id)
  {
    if Expired(before.reg, now, id) then
      if before.reg[id].profile.onTimeout == "pause" && id in before.cs && id !in f.pause then
        && id in after.reg && id in after.cs
        && after.reg[id] == before.reg[id].(state := Paused, pauseMode := Frozen, pausedAt := now)
        && after.cs[id] == before.cs[id].(paused := true)
      else Gone(before, after, id, f)
    else if FrozenAt(before.reg, id) && id in victims && id in before.cs && id !in f.stop then
      && id in after.reg && id in after.cs
      && after.reg[id] == before.reg[id].(pauseMode := Stopped, pausedAt := now)
      && after.cs[id] == before.cs[id].(stopped := true, paused := false)
    else if Collected(before.reg, policy, now, id) then Gone(before, after, id, f)
    else Kept(before, after, id)
  }

  ghost predicate SweepPromise(before: World, after: World, policy: Policy, now: Time, victims: set<Id>,
                               f: SweepFaults)
  {
    forall id :: SweptOne(before, after, policy, now, victims, f, id)
  }

  // What a sweep reports: all it set out to touch, but for stops that failed.
  ghost predicate ReportPromise(before: World, policy: Policy, now: Time, victims: set<Id>, f: SweepFaults,
                                touched: set<Id>)
  {
    forall id ::
      id in touched <==>
        || Expired(before.reg, now, id)
        || (FrozenAt(before.reg, id) && id in victims && id in before.cs && id !in f.stop)
        || Collected(before.reg, policy, now, id)
  }

  // The other three lists, told by the records alone.
  ghost predicate ListsPromise(reg: Registry, policy: Policy, now: Time, plan: SweepPlan) {
    && (forall id :: id in plan.kill <==> Expired(reg, now, id) && reg[id].profile.onTimeout != "pause")
    && (forall id :: id in plan.pause <==> Expired(reg, now, id) && reg[id].profile.onTimeout == "pause")
    && forall id :: id in plan.gc <==> Collected(reg, policy, now, id)
  }

  lemma ListsKeepPromise(reg: Registry, policy: Policy, now: Time, plan: SweepPlan)
    requires PlanFor(reg, policy, now, plan)
    ensures ListsPromise(reg, policy, now, plan)
  {
  }

  lemma YoungAreFresh(reg: Registry, policy: Policy, now: Time)
    ensures Young(reg, policy, now) == FreshFrozen(reg, policy, now)
    ensures forall id :: id in AgedFrozen(reg, policy, now) <==> FrozenAt(reg, id) && PeriodOver(reg, policy, now, id)
  {
  }

  lemma VictimsKeepPromise(reg: Registry, policy: Policy, now: Time, plan: SweepPlan)
    requires PlanFor(reg, policy, now, plan)
    ensures VictimsPromise(reg, policy, now, plan.demote)
  {
    DemotedAreFrozen(reg, policy, now, plan);
    YoungAreFresh(reg, policy, now);
    assert plan.demote * Young(reg, policy, now) == plan.demote - AgedFrozen(reg, policy, now);
  }

  lemma SweepOneKeepsPromise(w: World, policy: Policy, now: Time, plan: SweepPlan, f: SweepFaults, id: Id)
    requires id in plan.kill <==> Expired(w.reg, now, id) && w.reg[id].profile.onTimeout != "pause"
    requires id in plan.pause <==> Expired(w.reg, now, id) && w.reg[id].profile.onTimeout == "pause"
    requires id in plan.gc <==> Collected(w.reg, policy, now, id)
    requires id in plan.demote ==> FrozenAt(w.reg, id)
    ensures SweptOne(w, SweepWorld(w, plan, now, f), policy, now, plan.demote, f, id)
  {
  }

  lemma SweepKeepsPromise(w: World, policy: Policy, now: Time, plan: SweepPlan, f: SweepFaults)
    requires PlanFor(w.reg, policy, now, plan)
    ensures SweepPromise(w, SweepWorld(w, plan, now, f), policy, now, plan.demote, f)
    ensures VictimsPromise(w.reg, policy, now, plan.demote)
    ensures ReportPromise(w, policy, now, plan.demote, f, Touched(w.cs, plan, f))
  {
    ListsKeepPromise(w.reg, policy, now, plan);
    VictimsKeepPromise(w.reg, policy, now, plan);
    forall id
      ensures SweptOne(w, SweepWorld(w, plan, now, f), policy, now, plan.demote, f, id)
    {
      SweepOneKeepsPromise(w, policy, now, plan, f, id);
    }
  }

  // The others inside their period that have been frozen no longer than id.
  ghost function NoOlder(reg: Registry, policy: Policy, now: Time, id: Id): set<Id>
    requires id in reg
  {
    set k | k in Young(reg, policy, now) && k != id && reg[id].pausedAt <= reg[k].pausedAt
  }

  // A sweep leaves a frozen sandbox and its container alone unless its period is
  // over or as many others as the cap allows have been frozen no longer.
  lemma FrozenIsLeftAlone(before: World, after: World, policy: Policy, now: Time, victims: set<Id>, f: SweepFaults,
                          id: Id)
    requires VictimsPromise(before.reg, policy, now, victims) && SweepPromise(before, after, policy, now, victims, f)
    requires FrozenAt(before.reg, id) && !Kept(before, after, id)
    ensures || PeriodOver(before.reg, policy, now, id)
            || (policy.maxFrozen > 0 && |NoOlder(before.reg, policy, now, id)| >= policy.maxFrozen)
  {
    var reg, young := before.reg, Young(before.reg, policy, now);
    assert SweptOne(before, after, policy, now, victims, f, id);
    if !PeriodOver(reg, policy, now, id) {
      assert id in victims * young;
      var spared := young - victims;
      assert young == victims * young + spared;
      assert spared <= NoOlder(reg, policy, now, id);
      SubsetIsNoLarger(spared, NoOlder(reg, policy, now, id));
    }
  }

  lemma SubsetIsNoLarger(a: set<Id>, b: set<Id>)
    requires a <= b
    ensures |a| <= |b|
  {
    assert b == a + (b - a);
  }

  // ----------------------------------------------------------------- restart

  // A record made from a container, its labels and nothing else.
  ghost predicate AdoptedAs(s: Sandbox, c: Container, now: Time, defaultTimeout: Time) {
    && (c.stopped ==> s.state == Paused && s.pauseMode == Stopped && s.agentHost == "")
    && (!c.stopped && c.paused ==> s.state == Paused && s.pauseMode == Frozen && s.agentHost == c.spec.agentHost)
    && (!c.stopped && !c.paused ==> s.state == Running && s.pauseMode == NoMode && s.agentHost == c.spec.agentHost)
    && s.agentPort == c.spec.agentPort
    && (s.state == Paused ==> s.pausedAt == now && s.expiresAt == c.spec.createdAt)
    && (s.state == Running ==> s.expiresAt == now + if defaultTimeout <= 0 then 300_000_000_000 else defaultTimeout)
    && s.profile.containerID == c.spec.containerID && s.profile.createdAt == c.spec.createdAt
    && s.profile.cpuCount == c.spec.cpuCount && s.profile.memoryMB == c.spec.memoryMB
  }

  // Only the image's own template id stands in where the container has none.
  ghost predicate NamedAs(p: Profile, labels: map<string, string>) {
    && p.envdToken == Lookup(labels, "edvabe.sandbox.token.envd")
    && p.trafficToken == Lookup(labels, "edvabe.sandbox.token.traffic")
    && p.alias == Lookup(labels, "edvabe.sandbox.template.alias")
    && p.templateID == (if Lookup(labels, "edvabe.sandbox.template.id") == "" then Lookup(labels, "edvabe.template.id")
                        else Lookup(labels, "edvabe.sandbox.template.id"))
    && p.onTimeout == (if Lookup(labels, "edvabe.sandbox.ontimeout") == "" then "kill"
                       else Lookup(labels, "edvabe.sandbox.ontimeout"))
  }

  ghost predicate MetadataAs(p: Profile, labels: map<string, string>) {
    forall m ::
      && (m in p.metadata <==> "edvabe.meta." + m in labels)
      && (m in p.metadata ==> p.metadata[m] == labels["edvabe.meta." + m])
  }

  // Variables of the bootstrap prefix are the runtime's own.
  ghost predicate EnvAs(p: Profile, envs: map<string, string>) {
    forall k :: (k in p.envVars <==> k in envs && !("EDVABE_" <= k)) && (k in p.envVars ==> p.envVars[k] == envs[k])
  }

  ghost predicate MadeFrom(s: Sandbox, c: Container, now: Time, defaultTimeout: Time) {
    && AdoptedAs(s, c, now, defaultTimeout)
    && NamedAs(s.profile, c.spec.labels) && MetadataAs(s.profile, c.spec.labels) && EnvAs(s.profile, c.spec.envs)
  }

  ghost predicate RehydratePromise(before: World, after: World, now: Time, defaultTimeout: Time) {
    && after.cs == before.cs
    && (forall id :: id in after.reg <==> id in before.reg || id in before.cs)
    && (forall id | id in before.reg :: after.reg[id] == before.reg[id])
    && forall id | id in before.cs && id !in before.reg :: MadeFrom(after.reg[id], before.cs[id], now, defaultTimeout)
  }

  lemma RecoverAdopts(id: Id, c: Container, now: Time, defaultTimeout: Time)
    ensures AdoptedAs(Recover(Managed(id, c), now, defaultTimeout), c, now, defaultTimeout)
  {
  }

  lemma RecoverNames(mc: ManagedContainer, now: Time, defaultTimeout: Time)
    ensures NamedAs(Recover(mc, now, defaultTimeout).profile, mc.labels)
  {
  }

  lemma RecoverMetadata(mc: ManagedContainer, now: Time, defaultTimeout: Time)
    ensures MetadataAs(Recover(mc, now, defaultTimeout).profile, mc.labels)
  {
    var p := Recover(mc, now, defaultTimeout).profile;
    MetadataReads(mc.labels);
    assert p.metadata == ExtractMetadata(mc.labels);
  }

  lemma MetadataReads(labels: map<string, string>)
    ensures var got := ExtractMetadata(labels);
            forall m ::
              && (m in got <==> "edvabe.meta." + m in labels)
              && (m in got ==> got[m] == labels["edvabe.meta." + m])
  {
    var got := ExtractMetadata(labels);
    MetaKeyInverse();
    forall m
      ensures m in got <==> "edvabe.meta." + m in labels
      ensures m in got ==> got[m] == labels["edvabe.meta." + m]
    {
      assert MetaKey(m) == "edvabe.meta." + m;
      assert MetaName(MetaKey(m)) == m;
    }
  }

  lemma RecoverEnv(mc: ManagedContainer, now: Time, defaultTimeout: Time)
    ensures EnvAs(Recover(mc, now, defaultTimeout).profile, mc.envVars)
  {
    EnvReads(mc.envVars);
    assert Recover(mc, now, defaultTimeout).profile.envVars == ExtractUserEnv(mc.envVars);
  }

  lemma EnvReads(envs: map<string, string>)
    ensures var got := ExtractUserEnv(envs);
            forall k :: (k in got <==> k in envs && !("EDVABE_" <= k)) && (k in got ==> got[k] == envs[k])
  {
  }

  lemma RecoverKeepsPromise(id: Id, c: Container, now: Time, defaultTimeout: Time)
    ensures MadeFrom(Recover(Managed(id, c), now, defaultTimeout), c, now, defaultTimeout)
  {
    RecoverAdopts(id, c, now, defaultTimeout);
    RecoverNames(Managed(id, c), now, defaultTimeout);
    RecoverMetadata(Managed(id, c), now, defaultTimeout);
    RecoverEnv(Managed(id, c), now, defaultTimeout);
  }

  lemma RehydrateKeepsPromise(w: World, now: Time, defaultTimeout: Time)
    ensures RehydratePromise(w, RehydrateWorld(w, now, defaultTimeout), now, defaultTimeout)
  {
    var after := RehydrateWorld(w, now, defaultTimeout);
    forall id | id in w.cs && id !in w.reg
      ensures MadeFrom(after.reg[id], w.cs[id], now, defaultTimeout)
    {
      RecoverKeepsPromise(id, w.cs[id], now, defaultTimeout);
    }
  }
}
