// The in-memory container runtime the manager is driven against. Each call can
// be made to fail by the environment (`fail`), in which case it has no effect;
// otherwise it fails only on an unknown (for Create: a known or empty) id.
module NoopRuntime {
  import opened Common
  import opened SandboxModel
  import opened Rehydration

  // A new container runs what the request asks for.
  ghost predicate BootedFor(c: Container, req: CreateRequest, now: Time) {
    && !c.paused && !c.stopped && c.spec.createdAt == now
    && c.spec.containerID == "noop-" + req.id && c.spec.agentHost == "127.0.0.1"
    && c.spec.agentPort == (if req.agentPort == 0 then 49983 else req.agentPort)
    && c.spec.image == req.image && c.spec.startCmd == req.startCmd && c.spec.readyCmd == req.readyCmd
    && c.spec.envs == req.envVars && c.spec.cpuCount == req.cpuCount && c.spec.memoryMB == req.memoryMB
    && forall m | m in req.metadata :: Lookup(c.spec.labels, MetaKey(m)) == req.metadata[m]
  }

  lemma NewContainerIsBooted(req: CreateRequest, now: Time)
    ensures BootedFor(NewContainer(req, now), req, now)
  {
    StampMeaning(SandboxLabels(req), req.metadata);
  }

  // A stopped container is reported as stopped, and without an address, whether
  // or not it was paused before.
  ghost predicate ReportOf(mc: ManagedContainer, c: Container) {
    && (mc.state == CStopped <==> c.stopped) && (mc.state == CPaused <==> c.paused && !c.stopped)
    && mc.agentHost == (if c.stopped then "" else c.spec.agentHost) && mc.agentPort == c.spec.agentPort
    && mc.containerID == c.spec.containerID && mc.image == c.spec.image && mc.createdAt == c.spec.createdAt
    && mc.labels == c.spec.labels && mc.envVars == c.spec.envs
    && mc.cpuCount == c.spec.cpuCount && mc.memoryMB == c.spec.memoryMB
  }

  class Runtime {
    var sandboxes: Containers

    constructor ()
      ensures sandboxes == map[]
    {
      sandboxes := map[];
    }

    method Create(req: CreateRequest, now: Time, fail: bool) returns (ok: bool)
      modifies this
      ensures RtResult(ok, sandboxes) == RtCreate(old(sandboxes), req, now, fail)
      ensures ok <==> !fail && req.id != "" && req.id !in old(sandboxes)
      ensures !ok ==> sandboxes == old(sandboxes)
      ensures ok ==> req.id in sandboxes && sandboxes == old(sandboxes)[req.id := sandboxes[req.id]]
      ensures ok ==> BootedFor(sandboxes[req.id], req, now)
    {
      if fail || req.id == "" || req.id in sandboxes { return false; }
      var labels := BuildSandboxLabels(req);
      labels := StampLabels(labels, req.metadata);
      var port := if req.agentPort == 0 then DEFAULT_AGENT_PORT else req.agentPort;
      sandboxes := sandboxes[req.id := Container(
        ContainerSpec("noop-" + req.id, "127.0.0.1", port, now, req.image, req.envVars, labels,
                      req.startCmd, req.readyCmd, req.cpuCount, req.memoryMB),
        false, false)];
      NewContainerIsBooted(req, now);
      ok := true;
    }

    method Destroy(id: Id, fail: bool) returns (ok: bool)
      modifies this
      ensures RtResult(ok, sandboxes) == RtDestroy(old(sandboxes), id, fail)
      ensures ok <==> !fail && id in old(sandboxes)
      ensures sandboxes
        == if ok then map k | k in old(sandboxes) && k != id :: old(sandboxes)[k] else old(sandboxes)
    {
      if fail || id !in sandboxes { return false; }
      sandboxes := sandboxes - {id};
      ok := true;
    }

    method Pause(id: Id, fail: bool) returns (ok: bool)
      modifies this
      ensures RtResult(ok, sandboxes) == RtPause(old(sandboxes), id, fail)
      ensures ok <==> !fail && id in old(sandboxes)
      ensures sandboxes == if ok then old(sandboxes)[id := old(sandboxes)[id].(paused := true)] else old(sandboxes)
    {
      if fail || id !in sandboxes { return false; }
      sandboxes := sandboxes[id := sandboxes[id].(paused := true)];
      ok := true;
    }

    method Unpause(id: Id, fail: bool) returns (ok: bool)
      modifies this
      ensures RtResult(ok, sandboxes) == RtUnpause(old(sandboxes), id, fail)
      ensures ok <==> !fail && id in old(sandboxes)
      ensures sandboxes == if ok then old(sandboxes)[id := old(sandboxes)[id].(paused := false)] else old(sandboxes)
    {
      if fail || id !in sandboxes { return false; }
      sandboxes := sandboxes[id := sandboxes[id].(paused := false)];
      ok := true;
    }

    method Stop(id: Id, fail: bool) returns (ok: bool)
      modifies this
      ensures RtResult(ok, sandboxes) == RtStop(old(sandboxes), id, fail)
      ensures ok <==> !fail && id in old(sandboxes)
      ensures sandboxes
        == if ok then old(sandboxes)[id := old(sandboxes)[id].(stopped := true, paused := false)] else old(sandboxes)
    {
      if fail || id !in sandboxes { return false; }
      sandboxes := sandboxes[id := sandboxes[id].(stopped := true, paused := false)];
      ok := true;
    }

    method Start(id: Id, fail: bool) returns (ok: bool)
      modifies this
      ensures RtResult(ok, sandboxes) == RtStart(old(sandboxes), id, fail)
      ensures ok <==> !fail && id in old(sandboxes)
      ensures sandboxes == if ok then old(sandboxes)[id := old(sandboxes)[id].(stopped := false)] else old(sandboxes)
    {
      if fail || id !in sandboxes { return false; }
      sandboxes := sandboxes[id := sandboxes[id].(stopped := false)];
      ok := true;
    }

    // The listing comes in map order; one entry per container.
    method ListAll() returns (out: seq<ManagedContainer>)
      ensures |out| == |sandboxes|
      ensures forall i, j | 0 <= i < j < |out| :: out[i].sandboxID != out[j].sandboxID
      ensures forall mc :: mc in out <==>
          mc.sandboxID in sandboxes && mc == Managed(mc.sandboxID, sandboxes[mc.sandboxID])
      ensures forall mc | mc in out :: mc.sandboxID in sandboxes && ReportOf(mc, sandboxes[mc.sandboxID])
    {
      out := [];
      var todo := sandboxes.Keys;
      while todo != {}
        invariant todo <= sandboxes.Keys
        invariant |out| + |todo| == |sandboxes.Keys|
        invariant forall i, j | 0 <= i < j < |out| :: out[i].sandboxID != out[j].sandboxID
        invariant forall mc :: mc in out <==>
            mc.sandboxID in sandboxes && mc.sandboxID !in todo && mc == Managed(mc.sandboxID, sandboxes[mc.sandboxID])
      {
        var id :| id in todo;
        todo := todo - {id};
        out := out + [Managed(id, sandboxes[id])];
      }
    }
  }
}
