// The sandbox manager: a registry in memory driving a container runtime.
module SandboxManager {
  import opened Common
  import opened SandboxModel
  import opened Rehydration
  import opened NoopRuntime
  import opened SandboxOps
  import opened SandboxPromises

  // xs lists exactly the set s, each member once.
  ghost predicate Lists(xs: seq<Id>, s: set<Id>) { NoDups(xs) && SetOf(xs) == s }

  lemma ListOneMore(xs: seq<Id>, s: set<Id>, x: Id)
    requires Lists(xs, s) && x !in s
    ensures Lists(xs + [x], s + {x})
  {
    assert forall i | 0 <= i < |xs| :: xs[i] in SetOf(xs);
  }

  lemma {:induction false} ListLength(xs: seq<Id>)
    requires NoDups(xs)
    ensures |SetOf(xs)| == |xs|
  {
    if xs != [] {
      var rest := xs[..|xs| - 1];
      ListLength(rest);
      assert xs == rest + [xs[|xs| - 1]];
      assert SetOf(xs) == SetOf(rest) + {xs[|xs| - 1]};
    }
  }

  ghost predicate OldestFirst(xs: seq<Id>, reg: Registry) {
    && (forall id | id in xs :: id in reg)
    && forall i, j | 0 <= i < j < |xs| :: reg[xs[i]].pausedAt <= reg[xs[j]].pausedAt
  }

  // Any order among equals will do; the work list is rebuilt by insertion.
  method SortByPausedAt(xs: seq<Id>, reg: Registry) returns (sorted: seq<Id>)
    requires NoDups(xs) && forall id | id in xs :: id in reg
    ensures Lists(sorted, SetOf(xs)) && OldestFirst(sorted, reg) && |sorted| == |xs|
  {
    sorted := [];
    for n := 0 to |xs|
      invariant Lists(sorted, SetOf(xs[..n])) && OldestFirst(sorted, reg) && |sorted| == n
    {
      var x := xs[n];
      var at := |sorted|;
      while at > 0 && reg[x].pausedAt < reg[sorted[at - 1]].pausedAt
        invariant 0 <= at <= |sorted|
        invariant forall j | at <= j < |sorted| :: reg[x].pausedAt <= reg[sorted[j]].pausedAt
      {
        at := at - 1;
      }
      assert x !in SetOf(xs[..n]);
      InsertLists(sorted, x, at);
      InsertKeepsOrder(sorted, reg, x, at);
      assert xs[..n + 1] == xs[..n] + [x];
      sorted := Insert(sorted, x, at);
    }
    assert xs[..|xs|] == xs;
  }

  function Insert(s: seq<Id>, x: Id, at: nat): (r: seq<Id>)
    requires at <= |s|
    ensures |r| == |s| + 1
    ensures forall i | 0 <= i < |r| :: r[i] == if i < at then s[i] else if i == at then x else s[i - 1]
  {
    s[..at] + [x] + s[at..]
  }

  lemma InsertLists(s: seq<Id>, x: Id, at: nat)
    requires at <= |s| && x !in s && NoDups(s)
    ensures Lists(Insert(s, x, at), SetOf(s) + {x})
  {
    var r := Insert(s, x, at);
    forall id ensures id in r <==> id in s || id == x {
      if id in s {
        var i :| 0 <= i < |s| && s[i] == id;
        assert r[if i < at then i else i + 1] == id;
      } else if id == x {
        assert r[at] == id;
      }
    }
  }

  lemma InsertKeepsOrder(s: seq<Id>, reg: Registry, x: Id, at: nat)
    requires at <= |s| && x in reg && OldestFirst(s, reg)
    requires at > 0 ==> reg[s[at - 1]].pausedAt <= reg[x].pausedAt
    requires forall j | at <= j < |s| :: reg[x].pausedAt <= reg[s[j]].pausedAt
    ensures OldestFirst(Insert(s, x, at), reg)
  {
    assert forall i | 0 <= i < at :: reg[s[i]].pausedAt <= reg[s[at - 1]].pausedAt <= reg[x].pausedAt;
  }

  class Manager {
    const rt: Runtime
    const policy: Policy
    const agentPort: int
    var sandboxes: Registry

    ghost function View(): World
      reads this, rt
    {
      World(sandboxes, rt.sandboxes)
    }

    constructor (rt: Runtime, policy: Policy, agentPort: int)
      ensures this.rt == rt && this.policy == policy && this.agentPort == agentPort && sandboxes == map[]
    {
      this.rt, this.policy, this.agentPort, sandboxes := rt, policy, agentPort, map[];
    }

    // Ids and tokens come from the caller's random source; the template has
    // been resolved.
    method Create(opts: CreateOptions, res: Resolution, id: Id, envdToken: string, trafficToken: string, now: Time,
        f: Faults)
      returns (answer: Answer)
      modifies this, rt
      ensures Reply(View(), answer)
        == CreateReply(old(View()), ResolveRequest(opts, res, id, envdToken, trafficToken, agentPort), now, f)
      ensures CreatePromise(old(View()), View(), answer, opts, res, id, envdToken, trafficToken, agentPort, now, f)
    {
      CreateKeepsPromise(View(), opts, res, id, envdToken, trafficToken, agentPort, now, f);
      var req := ResolveRequest(opts, res, id, envdToken, trafficToken, agentPort);
      var ok := rt.Create(req, now, f.create);
      if !ok { return ErrRuntime; }
      var spec := rt.sandboxes[id].spec;
      if f.ping { var _ := rt.Destroy(id, f.destroy); return ErrRuntime; }
      if f.init { var _ := rt.Destroy(id, f.destroy); return ErrRuntime; }
      if req.readyCmd != "" {
        if f.ready { var _ := rt.Destroy(id, f.destroy); return ErrRuntime; }
      }
      sandboxes := sandboxes[id := NewSandbox(req, spec, now)];
      answer := Success;
    }

    method Destroy(id: Id, f: Faults) returns (answer: Answer)
      modifies this, rt
      ensures Reply(View(), answer) == DestroyReply(old(View()), id, f)
      ensures DestroyPromise(old(View()), View(), answer, id, f)
    {
      DestroyKeepsPromise(View(), id, f);
      if id !in sandboxes { return ErrNotFound; }
      sandboxes := sandboxes - {id};
      var ok := rt.Destroy(id, f.destroy);
      answer := if ok then Success else ErrRuntime;
    }

    method SetTimeout(id: Id, timeout: Time, now: Time) returns (answer: Answer)
      modifies this
      ensures Reply(View(), answer) == SetTimeoutReply(old(View()), id, timeout, now)
      ensures SetTimeoutPromise(old(View()), View(), answer, id, timeout, now)
    {
      SetTimeoutKeepsPromise(View(), id, timeout, now);
      if id !in sandboxes { return ErrNotFound; }
      var s := sandboxes[id];
      if s.state != Paused && s.expiresAt <= now { return ErrExpired; }
      sandboxes := sandboxes[id := s.(expiresAt := now + timeout)];
      answer := Success;
    }

    method Connect(id: Id, timeout: Time, now: Time, f: Faults) returns (answer: Answer)
      modifies this, rt
      ensures Reply(View(), answer) == ConnectReply(old(View()), id, timeout, now, f)
      ensures ConnectPromise(old(View()), View(), answer, id, timeout, now, f)
    {
      ConnectKeepsPromise(View(), id, timeout, now, f);
      if id !in sandboxes { return ErrNotFound; }
      var s := sandboxes[id];
      if s.state != Paused && s.expiresAt <= now { return ErrExpired; }
      sandboxes := sandboxes[id := s.(expiresAt := now + timeout)];
      if s.state != Paused { return Success; }
      if s.pauseMode == Stopped {
        var ok := ResumeStopped(id, f);
        if !ok { return ErrRuntime; }
      } else {
        var ok := rt.Unpause(id, f.unpause);
        if !ok { return ErrRuntime; }
      }
      sandboxes := sandboxes[id := sandboxes[id].(state := Running, pauseMode := NoMode, pausedAt := ZERO_TIME)];
      answer := Success;
    }

    // Boot, look the agent's address up again, and hand it its token again.
    method ResumeStopped(id: Id, f: Faults) returns (ok: bool)
      requires id in sandboxes
      modifies this, rt
      ensures ok == (RtStart(old(rt.sandboxes), id, f.start).ok && !f.endpoint && !f.ping && !f.init)
      ensures rt.sandboxes == RtStart(old(rt.sandboxes), id, f.start).containers
      ensures sandboxes == (
        if ok then SetAgent(old(sandboxes), id, rt.sandboxes[id].spec.agentHost, rt.sandboxes[id].spec.agentPort)
        else old(sandboxes))
    {
      ok := rt.Start(id, f.start);
      if !ok || f.endpoint { return false; }
      var host, port := rt.sandboxes[id].spec.agentHost, rt.sandboxes[id].spec.agentPort;
      if f.ping || f.init { return false; }
      sandboxes := sandboxes[id := sandboxes[id].(agentHost := host, agentPort := port)];
    }

    method Pause(id: Id, now: Time, f: Faults) returns (answer: Answer)
      modifies this, rt
      ensures Reply(View(), answer) == PauseReply(old(View()), id, now, f)
      ensures PausePromise(old(View()), View(), answer, id, now, f)
    {
      PauseKeepsPromise(View(), id, now, f);
      if id !in sandboxes { return ErrNotFound; }
      if sandboxes[id].state == Paused { return Success; }
      var ok := rt.Pause(id, f.pause);
      if !ok { return ErrRuntime; }
      sandboxes := sandboxes[id := sandboxes[id].(state := Paused, pauseMode := Frozen, pausedAt := now)];
      answer := Success;
    }

    // A frozen container must be thawed before it can be stopped.
    method Stop(id: Id, now: Time, f: Faults) returns (answer: Answer)
      modifies this, rt
      ensures Reply(View(), answer) == StopReply(old(View()), id, now, f)
      ensures StopPromise(old(View()), View(), answer, id, now, f)
    {
      StopKeepsPromise(View(), id, now, f);
      if id !in sandboxes { return ErrNotFound; }
      var s := sandboxes[id];
      if s.state == Paused && s.pauseMode == Stopped { return Success; }
      if s.pauseMode == Frozen {
        var ok := rt.Unpause(id, f.unpause);
        if !ok { return ErrRuntime; }
      }
      var ok := rt.Stop(id, f.stop);
      if !ok { return ErrRuntime; }
      sandboxes := sandboxes[id := sandboxes[id].(state := Paused, pauseMode := Stopped, pausedAt := now)];
      answer := Success;
    }

    method Resume(id: Id, f: Faults) returns (answer: Answer)
      modifies this, rt
      ensures Reply(View(), answer) == ResumeReply(old(View()), id, f)
      ensures ResumePromise(old(View()), View(), answer, id, f)
    {
      ResumeKeepsPromise(View(), id, f);
      if id !in sandboxes { return ErrNotFound; }
      if sandboxes[id].state != Paused { return Success; }
      if sandboxes[id].pauseMode == Stopped {
        var ok := ResumeStopped(id, f);
        if !ok { return ErrRuntime; }
      } else {
        var ok := rt.Unpause(id, f.unpause);
        if !ok { return ErrRuntime; }
      }
      sandboxes := sandboxes[id := sandboxes[id].(state := Running, pauseMode := NoMode, pausedAt := ZERO_TIME)];
      answer := Success;
    }

    // The loop over the registry.
    method WorkLists(now: Time) returns (kill: seq<Id>, pause: seq<Id>, aged: seq<Id>, frozen: seq<Id>, gc: seq<Id>)
      modifies `sandboxes
      ensures Lists(kill, set id | id in old(sandboxes) && DueToKill(old(sandboxes)[id], now))
      ensures Lists(pause, set id | id in old(sandboxes) && DueToPause(old(sandboxes)[id], now))
      ensures Lists(gc, set id | id in old(sandboxes) && DueToGC(old(sandboxes)[id], policy, now))
      ensures Lists(aged, AgedFrozen(old(sandboxes), policy, now))
      ensures Lists(frozen, FreshFrozen(old(sandboxes), policy, now))
      ensures sandboxes == old(sandboxes) - (SetOf(kill) + SetOf(gc))
    {
      var reg := sandboxes;
      kill, pause, aged, frozen, gc := [], [], [], [], [];
      var todo := sandboxes.Keys;
      while todo != {}
        invariant todo <= reg.Keys
        invariant Lists(kill, Bucket(reg, todo, policy, now, ToKill)) &&
            Lists(pause, Bucket(reg, todo, policy, now, ToPause))
        invariant Lists(aged, Bucket(reg, todo, policy, now, ToDemote)) &&
            Lists(frozen, Bucket(reg, todo, policy, now, KeepFrozen))
        invariant Lists(gc, Bucket(reg, todo, policy, now, ToGC))
        invariant sandboxes == reg - (SetOf(kill) + SetOf(gc))
      {
        var id :| id in todo;
        var s := sandboxes[id];
        BucketGrows(reg, todo, policy, now, id, ToKill, kill); BucketGrows(reg, todo, policy, now, id, ToPause, pause);
        BucketGrows(reg, todo, policy, now, id, ToDemote, aged);
        BucketGrows(reg, todo, policy, now, id, KeepFrozen, frozen);
        BucketGrows(reg, todo, policy, now, id, ToGC, gc);
        todo := todo - {id};
        if s.state == Paused {
          if s.pauseMode == Frozen {
            if policy.freezeDuration > 0 && now - s.pausedAt >= policy.freezeDuration {
              aged := aged + [id];
            } else {
              frozen := frozen + [id];
            }
          } else if s.pauseMode == Stopped {
            if policy.stoppedGCAfter > 0 && now - s.pausedAt >= policy.stoppedGCAfter {
              gc := gc + [id];
              sandboxes := sandboxes - {id};
            }
          }
        } else if s.expiresAt <= now {
          if s.profile.onTimeout == ON_TIMEOUT_PAUSE {
            pause := pause + [id];
          } else {
            kill := kill + [id];
            sandboxes := sandboxes - {id};
          }
        }
      }
      BucketsAreDue(reg, policy, now);
    }

    // The sweep's lock region: sort every sandbox into a work list, and take
    // those about to be destroyed out of the registry.
    method PlanSweep(now: Time) returns (kill: seq<Id>, pause: seq<Id>, demote: seq<Id>, gc: seq<Id>,
        ghost plan: SweepPlan)
      modifies `sandboxes
      ensures PlanFor(old(sandboxes), policy, now, plan)
      ensures sandboxes == AfterPlanning(old(sandboxes), plan)
      ensures Lists(kill, plan.kill) && Lists(pause, plan.pause) && Lists(demote, plan.demote) && Lists(gc, plan.gc)
      ensures VictimsPromise(old(sandboxes), policy, now, plan.demote)
      ensures ListsPromise(old(sandboxes), policy, now, plan)
    {
      var reg := sandboxes;
      var aged, frozen: seq<Id>;
      kill, pause, aged, frozen, gc := WorkLists(now);
      demote := ChooseVictims(reg, aged, frozen, now);
      plan := SweepPlan(SetOf(kill), SetOf(pause), SetOf(demote), SetOf(gc));
      VictimsKeepPromise(reg, policy, now, plan);
      ListsKeepPromise(reg, policy, now, plan);
    }

    // All that are due by age, and of the rest the longest paused beyond the cap.
    method ChooseVictims(reg: Registry, aged: seq<Id>, frozen: seq<Id>, now: Time) returns (demote: seq<Id>)
      requires Lists(aged, AgedFrozen(reg, policy, now)) && Lists(frozen, FreshFrozen(reg, policy, now))
      ensures NoDups(demote) && CapRespected(reg, policy, now, SetOf(demote))
    {
      demote := aged;
      if policy.maxFrozen > 0 && |frozen| > policy.maxFrozen {
        assert forall id | id in frozen :: id in SetOf(frozen);
        var oldest := SortByPausedAt(frozen, reg);
        LruRespectsCap(reg, policy, now, aged, oldest);
        var excess := |oldest| - policy.maxFrozen;
        demote := aged + oldest[..excess];
      } else {
        ListLength(frozen);
        assert SetOf(aged) - AgedFrozen(reg, policy, now) == {};
      }
    }

    // One sweep of the reaper: plan under the lock, then call the runtime.
    method EnforceTimeouts(now: Time, f: SweepFaults) returns (touched: seq<Id>, ghost plan: SweepPlan)
      modifies this, rt
      ensures PlanFor(old(sandboxes), policy, now, plan)
      ensures View() == SweepWorld(old(View()), plan, now, f)
      ensures Lists(touched, Touched(old(rt.sandboxes), plan, f))
      ensures SweepPromise(old(View()), View(), policy, now, plan.demote, f)
      ensures VictimsPromise(old(sandboxes), policy, now, plan.demote)
      ensures ReportPromise(old(View()), policy, now, plan.demote, f, SetOf(touched)) && NoDups(touched)
    {
      ghost var w := View();
      var kill, pause, demote, gc;
      kill, pause, demote, gc, plan := PlanSweep(now);
      PlanIsDisjoint(w.reg, policy, now, plan);
      PlanIsRegistered(w.reg, policy, now, plan);
      touched := CarryOut(kill, pause, demote, gc, now, w, plan, f);
      SweepKeepsPromise(w, policy, now, plan, f);
    }

    // The runtime calls of a sweep, list by list.
    method CarryOut(kill: seq<Id>, pause: seq<Id>, demote: seq<Id>, gc: seq<Id>, now: Time,
                    ghost w: World, ghost plan: SweepPlan, f: SweepFaults)
      returns (touched: seq<Id>)
      requires Disjoint(plan) && AllOf(plan) <= w.reg.Keys
      requires View() == World(AfterPlanning(w.reg, plan), w.cs)
      requires Lists(kill, plan.kill) && Lists(pause, plan.pause) && Lists(demote, plan.demote) && Lists(gc, plan.gc)
      modifies this, rt
      ensures View() == SweepWorld(w, plan, now, f)
      ensures Lists(touched, Touched(w.cs, plan, f))
    {
      SweepOfNothing(w, plan, now, f);
      DestroyEach(kill, w.cs, NO_PLAN, f);
      var demoted := CarryOutPauses(pause, demote, now, w, plan, f);
      DestroyEach(gc, w.cs, plan.(gc := {}), f);
      KillOrCollect(w.cs, plan, f);
      touched := kill + pause + demoted + gc;
      TouchedIsListed(w.cs, plan, f, kill, pause, demoted, gc);
    }

    method CarryOutPauses(pause: seq<Id>, demote: seq<Id>, now: Time, ghost w: World, ghost plan: SweepPlan,
        f: SweepFaults)
      returns (demoted: seq<Id>)
      requires Disjoint(plan) && AllOf(plan) <= w.reg.Keys
      requires View() == World(SweepReg(w, plan.(pause := {}, demote := {}), now, f),
                               SweepCs(w.cs, plan.(pause := {}, demote := {}, gc := {}), f))
      requires Lists(pause, plan.pause) && Lists(demote, plan.demote)
      modifies this, rt
      ensures View() == World(SweepReg(w, plan, now, f), SweepCs(w.cs, plan.(gc := {}), f))
      ensures Lists(demoted, Demoted(w.cs, plan.demote, f))
    {
      FreezeEach(pause, now, w, plan.(pause := {}, demote := {}), plan.(pause := {}, demote := {}, gc := {}), f);
      assert plan.(pause := {}, demote := {}).(pause := SetOf(pause)) == plan.(demote := {});
      assert plan.(pause := {}, demote := {}, gc := {}).(pause := SetOf(pause)) == plan.(demote := {}, gc := {});
      demoted := DemoteEach(demote, now, w, plan.(demote := {}), plan.(demote := {}, gc := {}), f);
      assert plan.(demote := {}).(demote := SetOf(demote)) == plan;
      assert plan.(demote := {}, gc := {}).(demote := SetOf(demote)) == plan.(gc := {});
    }

    // The loops over the lists of sandboxes to destroy; failures are ignored.
    // `done` is what of the plan has been carried out on the containers so far.
    method DestroyEach(ids: seq<Id>, ghost cs: Containers, ghost done: SweepPlan, f: SweepFaults)
      requires NoDups(ids) && Disjoint(done) && SetOf(ids) !! AllOf(done)
      requires rt.sandboxes == SweepCs(cs, done, f)
      modifies rt
      ensures rt.sandboxes == SweepCs(cs, done.(kill := done.kill + SetOf(ids)), f)
    {
      for i := 0 to |ids|
        invariant rt.sandboxes == SweepCs(cs, done.(kill := done.kill + SetOf(ids[..i])), f)
      {
        TakeOneMore(ids, i);
        DestroyOneMore(cs, done.(kill := done.kill + SetOf(ids[..i])), f, ids[i]);
        var _ := rt.Destroy(ids[i], ids[i] in f.destroy);
      }
      assert ids[..|ids|] == ids;
    }

    // The loop over expired sandboxes to freeze. One that cannot be frozen is
    // removed and destroyed instead. `planned` is what of the plan shows in the
    // registry so far, `done` what of it has been done to the containers.
    method FreezeEach(ids: seq<Id>, now: Time, ghost w: World, ghost planned: SweepPlan, ghost done: SweepPlan,
        f: SweepFaults)
      requires NoDups(ids) && Disjoint(planned) && SetOf(ids) !! AllOf(planned) && SetOf(ids) <= w.reg.Keys
      requires planned.pause == {} && done == planned.(gc := {})
      requires View() == World(SweepReg(w, planned, now, f), SweepCs(w.cs, done, f))
      modifies this, rt
      ensures View() == World(SweepReg(w, planned.(pause := SetOf(ids)), now, f),
                              SweepCs(w.cs, done.(pause := SetOf(ids)), f))
    {
      for i := 0 to |ids|
        invariant sandboxes == SweepReg(w, planned.(pause := SetOf(ids[..i])), now, f)
        invariant rt.sandboxes == SweepCs(w.cs, done.(pause := SetOf(ids[..i])), f)
      {
        TakeOneMore(ids, i);
        FreezeOne(ids[i], now, w, planned.(pause := SetOf(ids[..i])), done.(pause := SetOf(ids[..i])), f);
      }
      assert ids[..|ids|] == ids;
    }

    method FreezeOne(id: Id, now: Time, ghost w: World, ghost planned: SweepPlan, ghost done: SweepPlan, f: SweepFaults)
      requires Disjoint(planned) && id !in AllOf(planned) && id in w.reg && done == planned.(gc := {})
      requires View() == World(SweepReg(w, planned, now, f), SweepCs(w.cs, done, f))
      modifies this`sandboxes, rt
      ensures View() == World(SweepReg(w, planned.(pause := planned.pause + {id}), now, f),
                              SweepCs(w.cs, done.(pause := done.pause + {id}), f))
    {
      PauseOneMore(w, planned, done, now, f, id);
      var ok := rt.Pause(id, id in f.pause);
      if !ok {
        sandboxes := sandboxes - {id};
        var _ := rt.Destroy(id, id in f.destroy);
      } else {
        sandboxes := sandboxes[id := sandboxes[id].(state := Paused, pauseMode := Frozen, pausedAt := now)];
      }
    }

    // The loop over frozen sandboxes to stop; one that cannot be is left alone.
    method DemoteEach(ids: seq<Id>, now: Time, ghost w: World, ghost planned: SweepPlan, ghost done: SweepPlan,
        f: SweepFaults)
      returns (demoted: seq<Id>)
      requires NoDups(ids) && Disjoint(planned) && SetOf(ids) !! AllOf(planned) && SetOf(ids) <= w.reg.Keys
      requires planned.demote == {} && done == planned.(gc := {})
      requires View() == World(SweepReg(w, planned, now, f), SweepCs(w.cs, done, f))
      modifies this, rt
      ensures View() == World(SweepReg(w, planned.(demote := SetOf(ids)), now, f),
                              SweepCs(w.cs, done.(demote := SetOf(ids)), f))
      ensures Lists(demoted, Demoted(w.cs, SetOf(ids), f))
    {
      demoted := [];
      for i := 0 to |ids|
        invariant sandboxes == SweepReg(w, planned.(demote := SetOf(ids[..i])), now, f)
        invariant rt.sandboxes == SweepCs(w.cs, done.(demote := SetOf(ids[..i])), f)
        invariant Lists(demoted, Demoted(w.cs, SetOf(ids[..i]), f))
      {
        TakeOneMore(ids, i);
        var id := ids[i];
        var ok := DemoteOne(id, now, w, planned.(demote := SetOf(ids[..i])), done.(demote := SetOf(ids[..i])), f);
        DemotedOneMore(w.cs, SetOf(ids[..i]), id, f);
        if ok {
          ListOneMore(demoted, Demoted(w.cs, SetOf(ids[..i]), f), id);
          demoted := demoted + [id];
        }
      }
      assert ids[..|ids|] == ids;
    }

    method DemoteOne(id: Id, now: Time, ghost w: World, ghost planned: SweepPlan, ghost done: SweepPlan, f: SweepFaults)
      returns (ok: bool)
      requires Disjoint(planned) && id !in AllOf(planned) && id in w.reg && done == planned.(gc := {})
      requires View() == World(SweepReg(w, planned, now, f), SweepCs(w.cs, done, f))
      modifies this`sandboxes, rt
      ensures ok == CallOk(w.cs, id, f.stop)
      ensures View() == World(SweepReg(w, planned.(demote := planned.demote + {id}), now, f),
                              SweepCs(w.cs, done.(demote := done.demote + {id}), f))
    {
      DemoteOneMore(w, planned, done, now, f, id);
      ok := rt.Stop(id, id in f.stop);
      if ok { sandboxes := sandboxes[id := sandboxes[id].(pauseMode := Stopped, pausedAt := now)]; }
    }

    // How many sandboxes were added; None if the containers cannot be listed.
    method Rehydrate(now: Time, defaultTimeout: Time, fail: bool) returns (added: Option<nat>)
      modifies this
      ensures added.None? <==> fail
      ensures View() == if fail then old(View()) else RehydrateWorld(old(View()), now, defaultTimeout)
      ensures added.Some? ==> added.value == |sandboxes| - |old(sandboxes)|
      ensures fail ==> sandboxes == old(sandboxes)
      ensures !fail ==> RehydratePromise(old(View()), View(), now, defaultTimeout)
    {
      if fail { return None; }
      RehydrateKeepsPromise(View(), now, defaultTimeout);
      var managed := rt.ListAll();
      var n := Adopt(managed, now, defaultTimeout);
      AllListed(managed, rt.sandboxes);
      added := Some(n);
    }

    // The loop over the listed containers; a sandbox already live is kept.
    method Adopt(managed: seq<ManagedContainer>, now: Time, defaultTimeout: Time) returns (n: nat)
      requires DistinctIds(managed)
      modifies this`sandboxes
      ensures sandboxes == RehydrateFrom(old(sandboxes), Listed(managed), now, defaultTimeout)
      ensures n == |sandboxes| - |old(sandboxes)|
    {
      n := 0;
      ghost var were := sandboxes;
      RehydrateNothing(were, now, defaultTimeout);
      assert managed[..0] == [];
      for i := 0 to |managed|
        invariant n == |sandboxes| - |were|
        invariant sandboxes == RehydrateFrom(were, Listed(managed[..i]), now, defaultTimeout)
      {
        var mc := managed[i];
        RehydrateOneMore(were, managed, i, now, defaultTimeout);
        if mc.sandboxID !in sandboxes {
          sandboxes := sandboxes[mc.sandboxID := Recover(mc, now, defaultTimeout)];
          n := n + 1;
        }
      }
      assert managed[..|managed|] == managed;
    }
  }

  lemma TakeOneMore(xs: seq<Id>, i: nat)
    requires i < |xs| && NoDups(xs)
    ensures SetOf(xs[..i + 1]) == SetOf(xs[..i]) + {xs[i]} && xs[i] !in SetOf(xs[..i]) && xs[i] in SetOf(xs)
  {
    assert xs[..i + 1] == xs[..i] + [xs[i]];
  }

  ghost predicate Disjoint(plan: SweepPlan) {
    && plan.kill !! plan.pause && plan.kill !! plan.demote && plan.kill !! plan.gc
    && plan.pause !! plan.demote && plan.pause !! plan.gc && plan.demote !! plan.gc
  }

  function AllOf(plan: SweepPlan): set<Id> { plan.kill + plan.pause + plan.demote + plan.gc }

  lemma PlanIsDisjoint(reg: Registry, policy: Policy, now: Time, plan: SweepPlan)
    requires PlanFor(reg, policy, now, plan)
    ensures Disjoint(plan)
  {
    DemotedAreFrozen(reg, policy, now, plan);
  }

  const NO_PLAN := SweepPlan({}, {}, {}, {})

  function Demoted(cs: Containers, ids: set<Id>, f: SweepFaults): set<Id> {
    set id | id in ids && CallOk(cs, id, f.stop)
  }

  lemma DemotedOneMore(cs: Containers, ids: set<Id>, id: Id, f: SweepFaults)
    ensures Demoted(cs, ids + {id}, f) == Demoted(cs, ids, f) + if CallOk(cs, id, f.stop) then {id} else {}
  {
  }

  lemma SweepOfNothing(w: World, plan: SweepPlan, now: Time, f: SweepFaults)
    ensures SweepReg(w, plan.(pause := {}, demote := {}), now, f) == AfterPlanning(w.reg, plan)
    ensures SweepCs(w.cs, NO_PLAN, f) == w.cs
  {
  }

  // Containers do not tell a kill from a collection.
  lemma KillOrCollect(cs: Containers, plan: SweepPlan, f: SweepFaults)
    ensures SweepCs(cs, plan.(kill := plan.kill + plan.gc, gc := {}), f) == SweepCs(cs, plan, f)
  {
    assert Discarded(cs, plan.(kill := plan.kill + plan.gc, gc := {}), f) == Discarded(cs, plan, f);
  }

  lemma ListsJoin(xs: seq<Id>, s: set<Id>, ys: seq<Id>, t: set<Id>)
    requires Lists(xs, s) && Lists(ys, t) && s !! t
    ensures Lists(xs + ys, s + t)
  {
    assert forall i | 0 <= i < |xs| :: xs[i] in SetOf(xs);
    assert forall i | 0 <= i < |ys| :: ys[i] in SetOf(ys);
  }

  lemma TouchedIsListed(cs: Containers, plan: SweepPlan, f: SweepFaults, kill: seq<Id>, pause: seq<Id>,
      demoted: seq<Id>, gc: seq<Id>)
    requires Disjoint(plan) && Lists(kill, plan.kill) && Lists(pause, plan.pause) && Lists(gc, plan.gc)
    requires Lists(demoted, Demoted(cs, plan.demote, f))
    ensures Lists(kill + pause + demoted + gc, Touched(cs, plan, f))
  {
    ListsJoin(kill, plan.kill, pause, plan.pause);
    ListsJoin(kill + pause, plan.kill + plan.pause, demoted, Demoted(cs, plan.demote, f));
    ListsJoin(kill + pause + demoted, plan.kill + plan.pause + Demoted(cs, plan.demote, f), gc, plan.gc);
    assert Touched(cs, plan, f) == plan.kill + plan.pause + Demoted(cs, plan.demote, f) + plan.gc;
  }

  // One more Destroy, of an id the sweep has done nothing else with.
  lemma DestroyOneMore(cs: Containers, plan: SweepPlan, f: SweepFaults, id: Id)
    requires Disjoint(plan) && id !in AllOf(plan)
    ensures RtDestroy(SweepCs(cs, plan, f), id, id in f.destroy).containers
         == SweepCs(cs, plan.(kill := plan.kill + {id}), f)
  {
  }

  lemma PauseOneMore(w: World, plan: SweepPlan, done: SweepPlan, now: Time, f: SweepFaults, id: Id)
    requires Disjoint(plan) && id !in AllOf(plan) && id in w.reg
    requires done == plan.(gc := {})
    ensures var r := RtPause(SweepCs(w.cs, done, f), id, id in f.pause);
      var plan', done' := plan.(pause := plan.pause + {id}), done.(pause := done.pause + {id});
      var reg := SweepReg(w, plan, now, f);
      && id in reg
      && (r.ok ==> r.containers == SweepCs(w.cs, done', f) && MarkFrozen(reg, id, now) == SweepReg(w, plan', now, f))
      && (!r.ok ==>
            && RtDestroy(r.containers, id, id in f.destroy).containers == SweepCs(w.cs, done', f)
            && reg - {id} == SweepReg(w, plan', now, f))
  {
  }

  lemma DemoteOneMore(w: World, plan: SweepPlan, done: SweepPlan, now: Time, f: SweepFaults, id: Id)
    requires Disjoint(plan) && id !in AllOf(plan) && id in w.reg
    requires done == plan.(gc := {})
    ensures var r := RtStop(SweepCs(w.cs, done, f), id, id in f.stop);
      var plan', done' := plan.(demote := plan.demote + {id}), done.(demote := done.demote + {id});
      var reg := SweepReg(w, plan, now, f);
      && id in reg && r.containers == SweepCs(w.cs, done', f)
      && SweepReg(w, plan', now, f) == (if r.ok then MarkDemoted(reg, id, now) else reg)
  {
  }

  datatype Due = ToKill | ToPause | ToDemote | KeepFrozen | ToGC | Leave

  function Classify(s: Sandbox, policy: Policy, now: Time): Due {
    if s.state == Paused then
      match s.pauseMode
      case Frozen => if policy.freezeDuration > 0 && now - s.pausedAt >= policy.freezeDuration then ToDemote
          else KeepFrozen
      case Stopped => if policy.stoppedGCAfter > 0 && now - s.pausedAt >= policy.stoppedGCAfter then ToGC else Leave
      case NoMode => Leave
    else if s.expiresAt <= now then
      if s.profile.onTimeout == ON_TIMEOUT_PAUSE then ToPause else ToKill
    else Leave
  }

  // The sandboxes looked at so far (all but todo) that belong on list d.
  function Bucket(reg: Registry, todo: set<Id>, policy: Policy, now: Time, d: Due): set<Id> {
    set id | id in reg && id !in todo && Classify(reg[id], policy, now) == d
  }

  lemma BucketsAreDue(reg: Registry, policy: Policy, now: Time)
    ensures Bucket(reg, {}, policy, now, ToKill) == set id | id in reg && DueToKill(reg[id], now)
    ensures Bucket(reg, {}, policy, now, ToPause) == set id | id in reg && DueToPause(reg[id], now)
    ensures Bucket(reg, {}, policy, now, ToGC) == set id | id in reg && DueToGC(reg[id], policy, now)
    ensures Bucket(reg, {}, policy, now, ToDemote) == AgedFrozen(reg, policy, now)
    ensures Bucket(reg, {}, policy, now, KeepFrozen) == FreshFrozen(reg, policy, now)
  {
  }

  lemma BucketGrows(reg: Registry, todo: set<Id>, policy: Policy, now: Time, id: Id, d: Due, xs: seq<Id>)
    requires id in todo && todo <= reg.Keys && Lists(xs, Bucket(reg, todo, policy, now, d))
    ensures Lists(if Classify(reg[id], policy, now) == d then xs + [id]
        else xs, Bucket(reg, todo - {id}, policy, now, d))
  {
    var b, b' := Bucket(reg, todo, policy, now, d), Bucket(reg, todo - {id}, policy, now, d);
    if Classify(reg[id], policy, now) == d {
      ListOneMore(xs, b, id);
      assert b' == b + {id};
    } else {
      assert b' == b;
    }
  }

  // Demoting the head of the sorted list brings the count to the cap.
  lemma SetOfAppend(xs: seq<Id>, ys: seq<Id>)
    requires NoDups(xs) && NoDups(ys) && SetOf(xs) !! SetOf(ys)
    ensures NoDups(xs + ys) && SetOf(xs + ys) == SetOf(xs) + SetOf(ys)
  {
    assert forall i | 0 <= i < |xs| :: xs[i] in SetOf(xs);
    assert forall i | 0 <= i < |ys| :: ys[i] in SetOf(ys);
  }

  // The first n of a list that is ordered by pause time are the longest paused.
  lemma HeadIsOldest(xs: seq<Id>, reg: Registry, n: nat)
    requires NoDups(xs) && OldestFirst(xs, reg) && n <= |xs|
    ensures var head := SetOf(xs[..n]);
      && NoDups(xs[..n]) && |head| == n && head <= SetOf(xs)
      && forall v, k | v in head && k in SetOf(xs) - head :: reg[v].pausedAt <= reg[k].pausedAt
  {
    ListLength(xs[..n]);
    assert forall t | 0 <= t < n :: xs[..n][t] == xs[t] && xs[..n][t] in SetOf(xs[..n]);
    forall v, k | v in SetOf(xs[..n]) && k in SetOf(xs) - SetOf(xs[..n])
      ensures reg[v].pausedAt <= reg[k].pausedAt
    {
      var i :| 0 <= i < n && xs[..n][i] == v;
      var j :| 0 <= j < |xs| && xs[j] == k;
    }
  }

  lemma LruRespectsCap(reg: Registry, policy: Policy, now: Time, aged: seq<Id>, frozen: seq<Id>)
    requires Lists(aged, AgedFrozen(reg, policy, now)) && Lists(frozen, FreshFrozen(reg, policy, now))
    requires OldestFirst(frozen, reg) && policy.maxFrozen > 0 && |frozen| > policy.maxFrozen
    ensures var demote := aged + frozen[..|frozen| - policy.maxFrozen];
      NoDups(demote) && CapRespected(reg, policy, now, SetOf(demote))
  {
    var excess := |frozen| - policy.maxFrozen;
    var head := frozen[..excess];
    HeadIsOldest(frozen, reg, excess);
    SetOfAppend(aged, head);
    ListLength(frozen);
    assert SetOf(aged + head) - SetOf(aged) == SetOf(head);
  }

  // A listing without repetition, by id.
  ghost function Listed(mcs: seq<ManagedContainer>): map<Id, ManagedContainer> {
    if mcs == [] then map[] else Listed(mcs[..|mcs| - 1])[mcs[|mcs| - 1].sandboxID := mcs[|mcs| - 1]]
  }

  ghost predicate DistinctIds(mcs: seq<ManagedContainer>) {
    forall i, j | 0 <= i < j < |mcs| :: mcs[i].sandboxID != mcs[j].sandboxID
  }

  lemma {:induction false} ListedHolds(mcs: seq<ManagedContainer>)
    requires DistinctIds(mcs)
    ensures forall id :: id in Listed(mcs) <==> exists mc | mc in mcs :: mc.sandboxID == id
    ensures forall mc | mc in mcs :: mc.sandboxID in Listed(mcs) && Listed(mcs)[mc.sandboxID] == mc
  {
    if mcs != [] {
      var rest, last := mcs[..|mcs| - 1], mcs[|mcs| - 1];
      ListedHolds(rest);
      assert mcs == rest + [last];
      forall id ensures id in Listed(mcs) <==> exists mc | mc in mcs :: mc.sandboxID == id {
        if id in Listed(rest) {
          var mc :| mc in rest && mc.sandboxID == id;
          assert mc in mcs;
        }
        assert last in mcs;
      }
    }
  }

  lemma AllListed(mcs: seq<ManagedContainer>, cs: Containers)
    requires DistinctIds(mcs)
    requires forall mc :: mc in mcs <==> mc.sandboxID in cs && mc == Managed(mc.sandboxID, cs[mc.sandboxID])
    ensures Listed(mcs) == ListManaged(cs)
  {
    ListedHolds(mcs);
    forall id | id in cs ensures id in Listed(mcs) && Listed(mcs)[id] == Managed(id, cs[id]) {
      assert Managed(id, cs[id]) in mcs;
    }
  }

  lemma RehydrateNothing(reg: Registry, now: Time, defaultTimeout: Time)
    ensures RehydrateFrom(reg, Listed([]), now, defaultTimeout) == reg
  {
  }

  lemma RehydrateOneMore(reg: Registry, mcs: seq<ManagedContainer>, i: nat, now: Time, defaultTimeout: Time)
    requires i < |mcs| && DistinctIds(mcs)
    ensures var r := RehydrateFrom(reg, Listed(mcs[..i]), now, defaultTimeout); var id := mcs[i].sandboxID;
      RehydrateFrom(reg, Listed(mcs[..i + 1]), now, defaultTimeout)
        == if id in r then r else r[id := Recover(mcs[i], now, defaultTimeout)]
  {
    var id := mcs[i].sandboxID;
    assert mcs[..i + 1][..i] == mcs[..i];
    ListedHolds(mcs[..i]);
    assert id !in Listed(mcs[..i]);
    MapValuesOneMore((mc: ManagedContainer) => Recover(mc, now, defaultTimeout), Listed(mcs[..i]), id, mcs[i]);
    MergeOneMore(RecoverAll(Listed(mcs[..i]), now, defaultTimeout), reg, id, Recover(mcs[i], now, defaultTimeout));
  }

  lemma MergeOneMore(added: Registry, base: Registry, id: Id, s: Sandbox)
    requires id !in added
    ensures added[id := s] + base == if id in added + base then added + base else (added + base)[id := s]
  {
  }
}
