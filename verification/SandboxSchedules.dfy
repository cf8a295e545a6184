// How the two views of the manager fit: every operation as the class runs it is
// one schedule of the interleaving machine; and why the machine's coherence is
// claimed only of runs without overlap.
module SandboxSchedules {
  import opened Common
  import opened SandboxModel
  import opened SandboxConcurrency
  import opened SandboxOps
  import opened SandboxManager

  // ------------------------------------------- an operation with no company

  ghost predicate Steps(o: Outcome, io: Io, o': Outcome) {
    o.next.Some? && PickOk(o.next.value, io) && o' == AdvanceOp(o.next.value, o.sh, io)
  }

  // The outcomes one operation goes through when nothing comes in between.
  ghost predicate IsTrail(trail: seq<Outcome>, ios: seq<Io>) {
    && |trail| == |ios| + 1
    && forall k | 0 <= k < |ios| :: Steps(trail[k], ios[k], trail[k + 1])
  }

  ghost predicate Ends(first: Outcome, trail: seq<Outcome>, ios: seq<Io>, w: World) {
    && IsTrail(trail, ios) && trail[0] == first
    && var last := trail[|ios|];
       last.next.None? && last.sh.reg == w.reg && last.sh.cs == w.cs
  }

  lemma Go(trail: seq<Outcome>, ios: seq<Io>, io: Io) returns (trail': seq<Outcome>, ios': seq<Io>)
    requires IsTrail(trail, ios) && trail[|ios|].next.Some? && PickOk(trail[|ios|].next.value, io)
    ensures IsTrail(trail', ios') && trail'[0] == trail[0]
    ensures trail'[|ios'|] == AdvanceOp(trail[|ios|].next.value, trail[|ios|].sh, io)
  {
    trail', ios' := trail + [AdvanceOp(trail[|ios|].next.value, trail[|ios|].sh, io)], ios + [io];
  }

  function Plain(fail: bool, now: Time): Io { Io(now, fail, "", 0, "") }

  lemma CreateIsASchedule(sh: Shared, req: CreateRequest, now: Time, f: Faults)
      returns (trail: seq<Outcome>, ios: seq<Io>)
    ensures Ends(BeginOp(OpCreate(req), sh, now), trail, ios, CreateReply(World(sh.reg, sh.cs), req, now, f).world)
  {
    trail, ios := [BeginOp(OpCreate(req), sh, now)], [];
    trail, ios := Go(trail, ios, Plain(f.create, now));
    var r := RtCreate(sh.cs, req, now, f.create);
    if r.ok {
      var bad := f.ping || f.init || (req.readyCmd != "" && f.ready);
      trail, ios := AfterCreateCall(trail, ios, req, now, bad, f.destroy);
    }
  }

  // The agent answers or not; then the sandbox is registered or undone.
  lemma AfterCreateCall(trail: seq<Outcome>, ios: seq<Io>, req: CreateRequest, now: Time, bad: bool, fail: bool)
      returns (trail': seq<Outcome>, ios': seq<Io>)
    requires IsTrail(trail, ios) && req.id in trail[|ios|].sh.cs
    requires trail[|ios|].next == Some(CreateAgent(req, trail[|ios|].sh.cs[req.id].spec))
    ensures IsTrail(trail', ios') && trail'[0] == trail[0] && trail'[|ios'|].next.None?
    ensures var before, after := trail[|ios|].sh, trail'[|ios'|].sh;
            && after.reg == (if bad then before.reg
                else before.reg[req.id := NewSandbox(req, before.cs[req.id].spec, now)])
            && after.cs == (if bad then RtDestroy(before.cs, req.id, fail).containers else before.cs)
  {
    trail', ios' := Go(trail, ios, Plain(bad, now));
    trail', ios' := Go(trail', ios', Plain(bad && fail, now));
  }

  lemma DestroyIsASchedule(sh: Shared, id: Id, now: Time, f: Faults) returns (trail: seq<Outcome>, ios: seq<Io>)
    ensures Ends(BeginOp(OpDestroy(id), sh, now), trail, ios, DestroyReply(World(sh.reg, sh.cs), id, f).world)
  {
    trail, ios := [BeginOp(OpDestroy(id), sh, now)], [];
    if id in sh.reg { trail, ios := Go(trail, ios, Plain(f.destroy, now)); }
  }

  lemma SetTimeoutIsASchedule(sh: Shared, id: Id, timeout: Time, now: Time) returns (trail: seq<Outcome>, ios: seq<Io>)
    ensures Ends(BeginOp(OpSetTimeout(id, timeout), sh, now), trail, ios,
                 SetTimeoutReply(World(sh.reg, sh.cs), id, timeout, now).world)
  {
    trail, ios := [BeginOp(OpSetTimeout(id, timeout), sh, now)], [];
  }

  lemma PauseIsASchedule(sh: Shared, id: Id, now: Time, f: Faults) returns (trail: seq<Outcome>, ios: seq<Io>)
    ensures Ends(BeginOp(OpPause(id), sh, now), trail, ios, PauseReply(World(sh.reg, sh.cs), id, now, f).world)
  {
    trail, ios := [BeginOp(OpPause(id), sh, now)], [];
    if id in sh.reg && sh.reg[id].state != Paused {
      trail, ios := Go(trail, ios, Plain(f.pause, now));
      if trail[|ios|].next.Some? { trail, ios := Go(trail, ios, Plain(false, now)); }
    }
  }

  lemma StopIsASchedule(sh: Shared, id: Id, now: Time, f: Faults) returns (trail: seq<Outcome>, ios: seq<Io>)
    ensures Ends(BeginOp(OpStop(id), sh, now), trail, ios, StopReply(World(sh.reg, sh.cs), id, now, f).world)
  {
    trail, ios := [BeginOp(OpStop(id), sh, now)], [];
    if id in sh.reg && !IsStopped(sh.reg[id]) {
      var frozen := sh.reg[id].pauseMode == Frozen;
      if frozen { trail, ios := Go(trail, ios, Plain(f.unpause, now)); }
      if !frozen || RtUnpause(sh.cs, id, f.unpause).ok {
        assert trail[|ios|].next == Some(StopCall(id)) && trail[|ios|].sh.reg == sh.reg;
        trail, ios := StopsAndRecords(trail, ios, id, now, f.stop);
      }
    }
  }

  lemma StopsAndRecords(trail: seq<Outcome>, ios: seq<Io>, id: Id, now: Time, fail: bool)
      returns (trail': seq<Outcome>, ios': seq<Io>)
    requires IsTrail(trail, ios) && trail[|ios|].next == Some(StopCall(id))
    ensures IsTrail(trail', ios') && trail'[0] == trail[0] && trail'[|ios'|].next.None?
    ensures var before, after := trail[|ios|].sh, trail'[|ios'|].sh;
            var r := RtStop(before.cs, id, fail);
            after.cs == r.containers && after.reg == if r.ok then MarkStopped(before.reg, id, now) else before.reg
  {
    trail', ios' := Go(trail, ios, Plain(fail, now));
    if RtStop(trail[|ios|].sh.cs, id, fail).ok { trail', ios' := Go(trail', ios', Plain(false, now)); }
  }

  // From the point where Connect or Resume goes on to wake a paused sandbox.
  lemma WakeIsASchedule(first: Outcome, id: Id, now: Time, f: Faults) returns (trail: seq<Outcome>, ios: seq<Io>)
    requires id in first.sh.reg && first.sh.reg[id].state == Paused
    requires first.next == ResumePoint(id, first.sh.reg[id])
    ensures Ends(first, trail, ios, WakeReply(World(first.sh.reg, first.sh.cs), id, f).world)
  {
    if first.sh.reg[id].pauseMode == Stopped {
      trail, ios := BootIsASchedule(first, id, now, f);
    } else {
      trail, ios := ThawIsASchedule(first, id, now, f);
    }
  }

  lemma ThawIsASchedule(first: Outcome, id: Id, now: Time, f: Faults) returns (trail: seq<Outcome>, ios: seq<Io>)
    requires id in first.sh.reg && first.sh.reg[id].pauseMode != Stopped && first.next == Some(ResumeThaw(id))
    ensures Ends(first, trail, ios, WakeReply(World(first.sh.reg, first.sh.cs), id, f).world)
  {
    trail, ios := [first], [];
    trail, ios := Go(trail, ios, Plain(f.unpause, now));
    if RtUnpause(first.sh.cs, id, f.unpause).ok { trail, ios := Go(trail, ios, Plain(false, now)); }
  }

  lemma BootIsASchedule(first: Outcome, id: Id, now: Time, f: Faults) returns (trail: seq<Outcome>, ios: seq<Io>)
    requires id in first.sh.reg && first.sh.reg[id].pauseMode == Stopped && first.next == Some(ResumeStart(id))
    ensures Ends(first, trail, ios, WakeReply(World(first.sh.reg, first.sh.cs), id, f).world)
  {
    trail, ios := [first], [];
    trail, ios := Go(trail, ios, Plain(f.start, now));
    if RtStart(first.sh.cs, id, f.start).ok {
      trail, ios := BootedIsRecorded(trail, ios, id, now, f.endpoint || f.ping || f.init);
    }
  }

  // The agent of a booted container answers or not; then its endpoint and the
  // new state are recorded.
  lemma BootedIsRecorded(trail: seq<Outcome>, ios: seq<Io>, id: Id, now: Time, bad: bool)
      returns (trail': seq<Outcome>, ios': seq<Io>)
    requires IsTrail(trail, ios) && trail[|ios|].next == Some(ResumeAgent(id)) && id in trail[|ios|].sh.cs
    ensures IsTrail(trail', ios') && trail'[0] == trail[0] && trail'[|ios'|].next.None?
    ensures var before, after := trail[|ios|].sh, trail'[|ios'|].sh;
            var spec := before.cs[id].spec;
            && after.cs == before.cs
            && after.reg == if bad then before.reg
                            else MarkRunning(SetAgent(before.reg, id, spec.agentHost, spec.agentPort), id)
  {
    var spec := trail[|ios|].sh.cs[id].spec;
    trail', ios' := Go(trail, ios, Io(now, bad, spec.agentHost, spec.agentPort, ""));
    if !bad {
      trail', ios' := Go(trail', ios', Plain(false, now));
      trail', ios' := Go(trail', ios', Plain(false, now));
    }
  }

  lemma ConnectIsASchedule(sh: Shared, id: Id, timeout: Time, now: Time, f: Faults)
      returns (trail: seq<Outcome>, ios: seq<Io>)
    ensures Ends(BeginOp(OpConnect(id, timeout), sh, now), trail, ios,
                 ConnectReply(World(sh.reg, sh.cs), id, timeout, now, f).world)
  {
    var first := BeginOp(OpConnect(id, timeout), sh, now);
    trail, ios := [first], [];
    if first.next.Some? { trail, ios := WakeIsASchedule(first, id, now, f); }
  }

  lemma ResumeIsASchedule(sh: Shared, id: Id, now: Time, f: Faults) returns (trail: seq<Outcome>, ios: seq<Io>)
    ensures Ends(BeginOp(OpResume(id), sh, now), trail, ios, ResumeReply(World(sh.reg, sh.cs), id, f).world)
  {
    var first := BeginOp(OpResume(id), sh, now);
    trail, ios := [first], [];
    if first.next.Some? { trail, ios := WakeIsASchedule(first, id, now, f); }
  }

  // ------------------------------------------------------------ the sweep

  // Between two calls: `shown` of the plan shows in the registry, `done` has
  // been done to the containers, `left` is still to do.
  ghost predicate At(o: Outcome, w: World, shown: SweepPlan, done: SweepPlan, left: SweepPlan, now: Time,
      f: SweepFaults) {
    && o.next == Some(Sweep(now, left, NextCall))
    && o.sh.reg == SweepReg(w, shown, now, f) && o.sh.cs == SweepCs(w.cs, done, f)
  }

  function Pick(id: Id, fails: set<Id>, now: Time): Io { Io(now, id in fails, "", 0, id) }

  lemma {:induction false} Kills(trail: seq<Outcome>, ios: seq<Io>, w: World, shown: SweepPlan, done: SweepPlan,
                                 left: SweepPlan, now: Time, f: SweepFaults)
      returns (trail': seq<Outcome>, ios': seq<Io>)
    requires IsTrail(trail, ios) && At(trail[|ios|], w, shown, done, left, now, f)
    requires Disjoint(done) && left.kill !! AllOf(done)
    ensures IsTrail(trail', ios') && trail'[0] == trail[0]
    ensures At(trail'[|ios'|], w, shown, done.(kill := done.kill + left.kill), left.(kill := {}), now, f)
    decreases left.kill
  {
    trail', ios' := trail, ios;
    if left.kill == {} {
      assert done.kill + left.kill == done.kill;
    } else {
      var id :| id in left.kill;
      DestroyOneMore(w.cs, done, f, id);
      trail', ios' := Go(trail', ios', Pick(id, f.destroy, now));
      var done', left' := done.(kill := done.kill + {id}), left.(kill := left.kill - {id});
      assert done'.kill + left'.kill == done.kill + left.kill;
      trail', ios' := Kills(trail', ios', w, shown, done', left', now, f);
    }
  }

  // Containers do not tell a collection from a kill.
  lemma {:induction false} Collections(trail: seq<Outcome>, ios: seq<Io>, w: World, shown: SweepPlan, done: SweepPlan,
                                       left: SweepPlan, now: Time, f: SweepFaults)
      returns (trail': seq<Outcome>, ios': seq<Io>)
    requires IsTrail(trail, ios) && At(trail[|ios|], w, shown, done, left, now, f)
    requires Disjoint(done) && left.gc !! AllOf(done) && left.kill == left.pause == left.demote == {}
    ensures IsTrail(trail', ios') && trail'[0] == trail[0]
    ensures At(trail'[|ios'|], w, shown, done.(kill := done.kill + left.gc), left.(gc := {}), now, f)
    decreases left.gc
  {
    trail', ios' := trail, ios;
    if left.gc == {} {
      assert done.kill + left.gc == done.kill;
    } else {
      var id :| id in left.gc;
      DestroyOneMore(w.cs, done, f, id);
      trail', ios' := Go(trail', ios', Pick(id, f.destroy, now));
      var done', left' := done.(kill := done.kill + {id}), left.(gc := left.gc - {id});
      assert done'.kill + left'.gc == done.kill + left.gc;
      trail', ios' := Collections(trail', ios', w, shown, done', left', now, f);
    }
  }

  // One freeze: marked if it works, dropped and destroyed if not.
  lemma OnePause(trail: seq<Outcome>, ios: seq<Io>, w: World, shown: SweepPlan, done: SweepPlan,
                 left: SweepPlan, id: Id, now: Time, f: SweepFaults)
      returns (trail': seq<Outcome>, ios': seq<Io>)
    requires IsTrail(trail, ios) && At(trail[|ios|], w, shown, done, left, now, f)
    requires Disjoint(shown) && done == shown.(gc := {}) && id !in AllOf(shown) && id in w.reg
    requires left.kill == {} && id in left.pause
    ensures IsTrail(trail', ios') && trail'[0] == trail[0]
    ensures At(trail'[|ios'|], w, shown.(pause := shown.pause + {id}), done.(pause := done.pause + {id}),
               left.(pause := left.pause - {id}), now, f)
  {
    PauseOneMore(w, shown, done, now, f, id);
    var r := RtPause(trail[|ios|].sh.cs, id, id in f.pause);
    trail', ios' := Go(trail, ios, Pick(id, f.pause, now));
    trail', ios' := Go(trail', ios', Pick(id, {}, now));
    if !r.ok { trail', ios' := Go(trail', ios', Pick(id, f.destroy, now)); }
  }

  lemma {:induction false} Pauses(trail: seq<Outcome>, ios: seq<Io>, w: World, shown: SweepPlan, done: SweepPlan,
                                  left: SweepPlan, now: Time, f: SweepFaults)
      returns (trail': seq<Outcome>, ios': seq<Io>)
    requires IsTrail(trail, ios) && At(trail[|ios|], w, shown, done, left, now, f)
    requires Disjoint(shown) && done == shown.(gc := {}) && left.pause !! AllOf(shown) && left.pause <= w.reg.Keys
    requires left.kill == {}
    ensures IsTrail(trail', ios') && trail'[0] == trail[0]
    ensures At(trail'[|ios'|], w, shown.(pause := shown.pause + left.pause), done.(pause := done.pause + left.pause),
               left.(pause := {}), now, f)
    decreases left.pause
  {
    trail', ios' := trail, ios;
    if left.pause == {} {
      assert shown.pause + left.pause == shown.pause;
    } else {
      var id :| id in left.pause;
      trail', ios' := OnePause(trail', ios', w, shown, done, left, id, now, f);
      var shown', left' := shown.(pause := shown.pause + {id}), left.(pause := left.pause - {id});
      assert shown'.pause + left'.pause == shown.pause + left.pause;
      trail', ios' := Pauses(trail', ios', w, shown', done.(pause := done.pause + {id}), left', now, f);
    }
  }

  lemma OneDemotion(trail: seq<Outcome>, ios: seq<Io>, w: World, shown: SweepPlan, done: SweepPlan,
                    left: SweepPlan, id: Id, now: Time, f: SweepFaults)
      returns (trail': seq<Outcome>, ios': seq<Io>)
    requires IsTrail(trail, ios) && At(trail[|ios|], w, shown, done, left, now, f)
    requires Disjoint(shown) && done == shown.(gc := {}) && id !in AllOf(shown) && id in w.reg
    requires left.kill == left.pause == {} && id in left.demote
    ensures IsTrail(trail', ios') && trail'[0] == trail[0]
    ensures At(trail'[|ios'|], w, shown.(demote := shown.demote + {id}), done.(demote := done.demote + {id}),
               left.(demote := left.demote - {id}), now, f)
  {
    DemoteOneMore(w, shown, done, now, f, id);
    var r := RtStop(trail[|ios|].sh.cs, id, id in f.stop);
    trail', ios' := Go(trail, ios, Pick(id, f.stop, now));
    if r.ok { trail', ios' := Go(trail', ios', Pick(id, {}, now)); }
  }

  lemma {:induction false} Demotions(trail: seq<Outcome>, ios: seq<Io>, w: World, shown: SweepPlan, done: SweepPlan,
                                     left: SweepPlan, now: Time, f: SweepFaults)
      returns (trail': seq<Outcome>, ios': seq<Io>)
    requires IsTrail(trail, ios) && At(trail[|ios|], w, shown, done, left, now, f)
    requires Disjoint(shown) && done == shown.(gc := {}) && left.demote !! AllOf(shown) && left.demote <= w.reg.Keys
    requires left.kill == left.pause == {}
    ensures IsTrail(trail', ios') && trail'[0] == trail[0]
    ensures At(trail'[|ios'|], w, shown.(demote := shown.demote + left.demote),
        done.(demote := done.demote + left.demote),
               left.(demote := {}), now, f)
    decreases left.demote
  {
    trail', ios' := trail, ios;
    if left.demote == {} {
      assert shown.demote + left.demote == shown.demote;
    } else {
      var id :| id in left.demote;
      trail', ios' := OneDemotion(trail', ios', w, shown, done, left, id, now, f);
      var shown', left' := shown.(demote := shown.demote + {id}), left.(demote := left.demote - {id});
      assert shown'.demote + left'.demote == shown.demote + left.demote;
      trail', ios' := Demotions(trail', ios', w, shown', done.(demote := done.demote + {id}), left', now, f);
    }
  }

  // Kills, then freezes.
  lemma FirstHalf(trail: seq<Outcome>, ios: seq<Io>, w: World, plan: SweepPlan, now: Time, f: SweepFaults)
      returns (trail': seq<Outcome>, ios': seq<Io>)
    requires Disjoint(plan) && plan.pause <= w.reg.Keys && IsTrail(trail, ios)
    requires At(trail[|ios|], w, plan.(pause := {}, demote := {}), NO_PLAN, plan, now, f)
    ensures IsTrail(trail', ios') && trail'[0] == trail[0]
    ensures At(trail'[|ios'|], w, plan.(demote := {}), plan.(demote := {}, gc := {}), plan.(kill := {},
        pause := {}), now, f)
  {
    var shown, done := plan.(pause := {}, demote := {}), plan.(pause := {}, demote := {}, gc := {});
    trail', ios' := Kills(trail, ios, w, shown, NO_PLAN, plan, now, f);
    assert NO_PLAN.(kill := {} + plan.kill) == done;
    trail', ios' := Pauses(trail', ios', w, shown, done, plan.(kill := {}), now, f);
    assert shown.(pause := {} + plan.pause) == plan.(demote := {});
    assert done.(pause := {} + plan.pause) == plan.(demote := {}, gc := {});
  }

  // Demotions, then collections.
  lemma SecondHalf(trail: seq<Outcome>, ios: seq<Io>, w: World, plan: SweepPlan, now: Time, f: SweepFaults)
      returns (trail': seq<Outcome>, ios': seq<Io>)
    requires Disjoint(plan) && plan.demote <= w.reg.Keys && IsTrail(trail, ios)
    requires At(trail[|ios|], w, plan.(demote := {}), plan.(demote := {}, gc := {}), plan.(kill := {},
        pause := {}), now, f)
    ensures IsTrail(trail', ios') && trail'[0] == trail[0]
    ensures At(trail'[|ios'|], w, plan, plan.(kill := plan.kill + plan.gc, gc := {}), NO_PLAN, now, f)
  {
    var left := plan.(kill := {}, pause := {}, demote := {});
    trail', ios' := Demotions(trail, ios, w, plan.(demote := {}), plan.(demote := {}, gc := {}), plan.(kill := {},
        pause := {}), now, f);
    assert plan.(demote := {} + plan.demote) == plan;
    assert plan.(demote := {}, gc := {}).(demote := {} + plan.demote) == plan.(gc := {});
    trail', ios' := Collections(trail', ios', w, plan, plan.(gc := {}), left, now, f);
    assert left.(gc := {}) == NO_PLAN;
  }

  lemma SweepIsASchedule(sh: Shared, policy: Policy, plan: SweepPlan, now: Time, f: SweepFaults)
      returns (trail: seq<Outcome>, ios: seq<Io>)
    requires PlanFor(sh.reg, policy, now, plan)
    ensures Ends(BeginOp(OpSweep(policy, plan), sh, now), trail, ios, SweepWorld(World(sh.reg, sh.cs), plan, now, f))
  {
    var w := World(sh.reg, sh.cs);
    PlanIsDisjoint(w.reg, policy, now, plan);
    PlanIsRegistered(w.reg, policy, now, plan);
    SweepOfNothing(w, plan, now, f);
    trail, ios := [BeginOp(OpSweep(policy, plan), sh, now)], [];
    trail, ios := FirstHalf(trail, ios, w, plan, now, f);
    trail, ios := SecondHalf(trail, ios, w, plan, now, f);
    KillOrCollect(w.cs, plan, f);
    trail, ios := Go(trail, ios, Plain(false, now));
  }

  // ------------------------------------------------------------ an overlap

  // One sandbox, a sweep on thread 0 and a Resume on thread 1.
  function Two(id: Id, sb: Sandbox, c: Container, threads: map<ThreadId, Pc>): St {
    St(Shared(map[id := sb], map[id := c], {}, {}), threads, {id}, false)
  }

  function Quiet(now: Time, id: Id): Io { Io(now, false, "", 0, id) }

  lemma AgedPlan(id: Id, sb: Sandbox, policy: Policy, now: Time)
    requires Aged(sb, policy, now)
    ensures PlanFor(map[id := sb], policy, now, SweepPlan({}, {}, {id}, {}))
  {
    var reg: Registry := map[id := sb];
    assert AgedFrozen(reg, policy, now) == {id};
    assert FreshFrozen(reg, policy, now) == {};
    assert {id} - AgedFrozen(reg, policy, now) == {};
  }

  ghost predicate Leads(s: St, l: Label, s': St) { Enabled(s, l) && Apply(s, l) == s' }

  lemma SweepStops(id: Id, sb: Sandbox, c: Container, policy: Policy, now: Time)
    requires Aged(sb, policy, now)
    ensures var plan, left := SweepPlan({}, {}, {id}, {}), SweepPlan({}, {}, {}, {});
            var s1 := Two(id, sb, c, map[0 := Sweep(now, plan, NextCall)]);
            var s2 := Two(id, sb, c.(stopped := true, paused := false), map[0 := Sweep(now, left, DemoteMark(id))]);
            && Leads(Two(id, sb, c, map[]), Begin(0, OpSweep(policy, plan), now), s1)
            && Leads(s1, Advance(0, Quiet(now, id)), s2)
  {
    AgedPlan(id, sb, policy, now);
    var plan := SweepPlan({}, {}, {id}, {});
    assert AfterPlanning(map[id := sb], plan) == map[id := sb];
    assert {id} - {id} == {};
  }

  lemma ResumeThaws(id: Id, sb: Sandbox, c: Container, sweep: Pc, now: Time)
    requires IsFrozen(sb)
    ensures var s2 := Two(id, sb, c, map[0 := sweep]);
            var s3 := Two(id, sb, c, map[0 := sweep, 1 := ResumeThaw(id)]);
            var s4 := Two(id, sb, c.(paused := false), map[0 := sweep, 1 := ResumeMark(id)]);
            Leads(s2, Begin(1, OpResume(id), now), s3) && Leads(s3, Advance(1, Quiet(now, id)), s4)
  {
  }

  // What each of the two writes into the record.
  function Demotion(sb: Sandbox, now: Time): Sandbox { sb.(pauseMode := Stopped, pausedAt := now) }

  function Wakened(sb: Sandbox): Sandbox { sb.(pauseMode := NoMode, state := Running, pausedAt := ZERO_TIME) }

  const NOTHING_LEFT := SweepPlan({}, {}, {}, {})

  lemma SweepRecords(id: Id, sb: Sandbox, c: Container, now: Time)
    ensures var s4 := Two(id, sb, c, map[0 := Sweep(now, NOTHING_LEFT, DemoteMark(id)), 1 := ResumeMark(id)]);
            var s5 := Two(id, Demotion(sb, now), c, map[0 := Sweep(now, NOTHING_LEFT, NextCall), 1 := ResumeMark(id)]);
            Leads(s4, Advance(0, Quiet(now, id)), s5)
  {
  }

  lemma ResumeRecords(id: Id, sb: Sandbox, c: Container, now: Time)
    ensures var s5 := Two(id, sb, c, map[0 := Sweep(now, NOTHING_LEFT, NextCall), 1 := ResumeMark(id)]);
            var s6 := Two(id, Wakened(sb), c, map[0 := Sweep(now, NOTHING_LEFT, NextCall)]);
            Leads(s5, Advance(1, Quiet(now, id)), s6)
  {
  }

  lemma SweepEnds(id: Id, sb: Sandbox, c: Container, now: Time)
    ensures var s6 := Two(id, sb, c, map[0 := Sweep(now, NOTHING_LEFT, NextCall)]);
            Leads(s6, Advance(0, Quiet(now, id)), Two(id, sb, c, map[]))
  {
  }

  // A sweep stops an aged frozen sandbox; before it records that, a Resume of
  // the same sandbox thaws it; each then writes its record. No call fails, and
  // the sandbox is left registered as running on a stopped container.
  lemma OverlapLosesCoherence(id: Id, sb: Sandbox, c: Container, policy: Policy, now: Time)
      returns (states: seq<St>, labels: seq<Label>)
    requires Matches(sb, c) && Aged(sb, policy, now)
    ensures IsRun(states, labels)
    ensures var s := states[|labels|];
            && s.threads == map[] && !s.faulted
            && id in s.sh.reg && id in s.sh.cs && s.sh.reg[id].state == Running && s.sh.cs[id].stopped
  {
    var plan := SweepPlan({}, {}, {id}, {});
    var stopped, demoted := c.(stopped := true, paused := false), Demotion(sb, now);
    var running := Wakened(demoted);
    var io, marking, done := Quiet(now, id), Sweep(now, NOTHING_LEFT, DemoteMark(id)), Sweep(now, NOTHING_LEFT,
        NextCall);
    SweepStops(id, sb, c, policy, now);
    ResumeThaws(id, sb, stopped, marking, now);
    SweepRecords(id, sb, stopped, now);
    ResumeRecords(id, demoted, stopped, now);
    SweepEnds(id, running, stopped, now);
    states := [Two(id, sb, c, map[]),
               Two(id, sb, c, map[0 := Sweep(now, plan, NextCall)]),
               Two(id, sb, stopped, map[0 := marking]),
               Two(id, sb, stopped, map[0 := marking, 1 := ResumeThaw(id)]),
               Two(id, sb, stopped, map[0 := marking, 1 := ResumeMark(id)]),
               Two(id, demoted, stopped, map[0 := done, 1 := ResumeMark(id)]),
               Two(id, running, stopped, map[0 := done]),
               Two(id, running, stopped, map[])];
    labels := [Begin(0, OpSweep(policy, plan), now), Advance(0, io), Begin(1, OpResume(id), now), Advance(1, io),
               Advance(0, io), Advance(1, io), Advance(0, io)];
    assert forall i | 0 <= i < |labels| :: Leads(states[i], labels[i], states[i + 1]);
  }
}
