// What the registry says about a container against what the container is.
// The manager's lock is released around runtime calls and nothing is rechecked
// afterwards, so this is claimed of runs in which no two operations in flight
// work on the same sandbox; operations on different sandboxes interleave freely.
module SandboxCoherence {
  import opened Common
  import opened SandboxModel
  import opened SandboxConcurrency

  // With faults, a paused record may be ahead of or behind its container: a
  // Stop that thawed but could not stop, a boot whose agent never answered.
  predicate Roughly(s: Sandbox, c: Container) {
    match (s.state, s.pauseMode)
    case (Running, NoMode) => !c.paused && !c.stopped
    case (Paused, Frozen) => !c.stopped
    case (Paused, Stopped) => !c.paused
    case _ => false
  }

  predicate Agrees(exact: bool, s: Sandbox, c: Container) {
    if exact then Matches(s, c) else Roughly(s, c)
  }

  // No two operations in flight answer for the same id.
  ghost predicate Exclusive(s: St) {
    forall t: ThreadId, u: ThreadId | t != u :: ClaimAt(s, t).Ids() !! ClaimAt(s, u).Ids()
  }

  ghost predicate Free(s: St, id: Id) {
    forall t: ThreadId :: id !in ClaimAt(s, t).Ids()
  }

  predicate IsRunning(sh: Shared, id: Id) {
    id in sh.reg && sh.reg[id].state == Running && sh.reg[id].pauseMode == NoMode
  }

  predicate Flags(sh: Shared, id: Id, paused: bool, stopped: bool) {
    id in sh.cs && sh.cs[id].paused == paused && sh.cs[id].stopped == stopped
  }

  predicate FrozenHere(sh: Shared, id: Id, exact: bool) {
    id in sh.reg && IsFrozen(sh.reg[id]) && id in sh.cs && Agrees(exact, sh.reg[id], sh.cs[id])
  }

  predicate StoppedHere(sh: Shared, id: Id, exact: bool) {
    id in sh.reg && IsStopped(sh.reg[id]) && id in sh.cs && Agrees(exact, sh.reg[id], sh.cs[id])
  }

  predicate PausedRecord(sh: Shared, id: Id) {
    id in sh.reg && (IsFrozen(sh.reg[id]) || IsStopped(sh.reg[id]))
  }

  // What is known of the sandbox an operation is in the middle of.
  ghost predicate PcOk(pc: Pc, sh: Shared, exact: bool) {
    match pc
    case CreateCall(_) => true
    case CreateUndo(_) => true
    case CreateAgent(req, _) => Flags(sh, req.id, false, false)
    case CreateRegister(req, _) => Flags(sh, req.id, false, false)
    case DestroyCall(_) => true
    case ResumeStart(id) => StoppedHere(sh, id, exact)
    case ResumeAgent(id) => id in sh.reg && IsStopped(sh.reg[id]) && Flags(sh, id, false, false)
    case ResumeHost(id, _, _) => id in sh.reg && IsStopped(sh.reg[id]) && Flags(sh, id, false, false)
    case ResumeThaw(id) => FrozenHere(sh, id, exact)
    case ResumeMark(id) => PausedRecord(sh, id) && Flags(sh, id, false, false)
    case PauseCall(id) => IsRunning(sh, id) && Flags(sh, id, false, false)
    case PauseMark(id) => IsRunning(sh, id) && Flags(sh, id, true, false)
    case StopThaw(id) => FrozenHere(sh, id, exact)
    case StopCall(id) => (IsRunning(sh, id) || (id in sh.reg && IsFrozen(sh.reg[id]))) && Flags(sh, id, false, false)
    case StopMark(id) => id in sh.reg && Flags(sh, id, false, true)
    case Sweep(_, plan, point) =>
      && (forall id | id in plan.pause :: IsRunning(sh, id) && Flags(sh, id, false, false))
      && (forall id | id in plan.demote :: FrozenHere(sh, id, exact))
      && (match point
          case FreezeMark(id) => IsRunning(sh, id) && Flags(sh, id, true, false)
          case DemoteMark(id) => id in sh.reg && IsFrozen(sh.reg[id]) && Flags(sh, id, false, true)
          case PauseDrop(id) => IsRunning(sh, id) && id !in plan.pause
          case _ => true)
  }

  ghost predicate Coherent(s: St) {
    && (forall id | id in s.sh.reg && Free(s, id) :: id in s.sh.cs && Agrees(!s.faulted, s.sh.reg[id], s.sh.cs[id]))
    && (forall t | t in s.threads :: PcOk(s.threads[t], s.sh, !s.faulted))
  }

  // ------------------------------------------------------------------- frames

  // Outside ids, no record's state and no container has changed.
  ghost predicate SameOutside(sh: Shared, sh': Shared, ids: set<Id>) {
    && (forall id | id !in ids ::
          && (id in sh'.reg <==> id in sh.reg)
          && (id in sh'.cs <==> id in sh.cs)
          && (id in sh.reg ==> sh'.reg[id].state == sh.reg[id].state && sh'.reg[id].pauseMode == sh.reg[id].pauseMode)
          && (id in sh.cs ==> sh'.cs[id].paused == sh.cs[id].paused && sh'.cs[id].stopped == sh.cs[id].stopped))
  }

  lemma AdvanceFrame(pc: Pc, sh: Shared, io: Io)
    requires PickOk(pc, io)
    ensures SameOutside(sh, AdvanceOp(pc, sh, io).sh, ClaimOf(pc).Ids())
  {
    if pc.Sweep? { SweepFrame(pc, sh, io); } else { SingleFrame(pc, sh, io); }
  }

  lemma SweepFrame(pc: Pc, sh: Shared, io: Io)
    requires pc.Sweep? && PickOk(pc, io)
    ensures SameOutside(sh, AdvanceOp(pc, sh, io).sh, ClaimOf(pc).Ids())
  {
  }

  lemma SingleFrame(pc: Pc, sh: Shared, io: Io)
    requires !pc.Sweep?
    ensures SameOutside(sh, AdvanceOp(pc, sh, io).sh, ClaimOf(pc).Ids())
  {
  }

  lemma PcOkFrame(pc: Pc, sh: Shared, sh': Shared, ids: set<Id>, exact: bool, exact': bool)
    requires PcOk(pc, sh, exact) && SameOutside(sh, sh', ids) && ClaimOf(pc).Ids() !! ids && (exact' ==> exact)
    ensures PcOk(pc, sh', exact')
  {
  }

  // -------------------------------------------------------------- preservation

  // The ids a step lets go of are left in agreement, and what the operation
  // does next is again justified.
  ghost predicate Settles(pc: Pc, sh: Shared, o: Outcome, exact: bool) {
    && (o.next.Some? ==> PcOk(o.next.value, o.sh, exact))
    && (forall id | id in ClaimOf(pc).Ids() - NextClaim(o.next).Ids() && id in o.sh.reg ::
          id in o.sh.cs && Agrees(exact, o.sh.reg[id], o.sh.cs[id]))
  }

  lemma AdvanceSettles(pc: Pc, sh: Shared, io: Io, minted: set<Id>, exact: bool)
    requires PcOk(pc, sh, exact) && ClaimOk(ClaimOf(pc), LedgerOf(sh), minted) && PickOk(pc, io)
    requires sh.removed !! sh.reg.Keys && sh.reg.Keys <= sh.cs.Keys
    ensures Settles(pc, sh, AdvanceOp(pc, sh, io), exact && !io.fail)
  {
    if pc.Sweep? {
      if pc.point.NextCall? { SweepCallSettles(pc, sh, io, minted, exact); }
          else { SweepMarkSettles(pc, sh, io, minted, exact); }
    } else if ClaimOf(pc).handled == {} {
      CreateSettles(pc, sh, io, minted, exact);
    } else {
      HandlingSettles(pc, sh, io, exact);
    }
  }

  lemma CreateSettles(pc: Pc, sh: Shared, io: Io, minted: set<Id>, exact: bool)
    requires !pc.Sweep? && ClaimOf(pc).handled == {}
    requires PcOk(pc, sh, exact) && ClaimOk(ClaimOf(pc), LedgerOf(sh), minted)
    requires sh.removed !! sh.reg.Keys
    ensures Settles(pc, sh, AdvanceOp(pc, sh, io), exact && !io.fail)
  {
  }

  lemma HandlingSettles(pc: Pc, sh: Shared, io: Io, exact: bool)
    requires !pc.Sweep? && ClaimOf(pc).handled != {}
    requires PcOk(pc, sh, exact) && sh.reg.Keys <= sh.cs.Keys
    ensures Settles(pc, sh, AdvanceOp(pc, sh, io), exact && !io.fail)
  {
    if Waking(pc) { WakingSettles(pc, sh, io, exact); } else { HaltingSettles(pc, sh, io, exact); }
  }

  predicate Waking(pc: Pc) {
    pc.ResumeStart? || pc.ResumeAgent? || pc.ResumeHost? || pc.ResumeThaw? || pc.ResumeMark?
  }

  lemma WakingSettles(pc: Pc, sh: Shared, io: Io, exact: bool)
    requires Waking(pc) && PcOk(pc, sh, exact)
    ensures Settles(pc, sh, AdvanceOp(pc, sh, io), exact && !io.fail)
  {
  }

  lemma HaltingSettles(pc: Pc, sh: Shared, io: Io, exact: bool)
    requires !pc.Sweep? && !Waking(pc) && ClaimOf(pc).handled != {}
    requires PcOk(pc, sh, exact) && sh.reg.Keys <= sh.cs.Keys
    ensures Settles(pc, sh, AdvanceOp(pc, sh, io), exact && !io.fail)
  {
  }

  lemma SweepCallSettles(pc: Pc, sh: Shared, io: Io, minted: set<Id>, exact: bool)
    requires pc.Sweep? && pc.point.NextCall? && PickOk(pc, io)
    requires PcOk(pc, sh, exact) && ClaimOk(ClaimOf(pc), LedgerOf(sh), minted)
    requires sh.removed !! sh.reg.Keys && sh.reg.Keys <= sh.cs.Keys
    ensures Settles(pc, sh, AdvanceOp(pc, sh, io), exact && !io.fail)
  {
    if pc.plan.kill == {} && pc.plan.pause != {} {
      SweepPauseSettles(pc, sh, io, exact);
    } else if pc.plan.kill == {} && pc.plan.demote != {} {
      SweepDemoteSettles(pc, sh, io, exact);
    } else {
      SweepDestroySettles(pc, sh, io, minted, exact);
    }
  }

  lemma SweepPauseSettles(pc: Pc, sh: Shared, io: Io, exact: bool)
    requires pc.Sweep? && pc.point.NextCall? && PickOk(pc, io)
    requires pc.plan.kill == {} && pc.plan.pause != {}
    requires PcOk(pc, sh, exact)
    ensures Settles(pc, sh, AdvanceOp(pc, sh, io), exact && !io.fail)
  {
  }

  lemma SweepDemoteSettles(pc: Pc, sh: Shared, io: Io, exact: bool)
    requires pc.Sweep? && pc.point.NextCall? && PickOk(pc, io)
    requires pc.plan.kill == {} && pc.plan.pause == {} && pc.plan.demote != {}
    requires PcOk(pc, sh, exact) && sh.reg.Keys <= sh.cs.Keys
    ensures Settles(pc, sh, AdvanceOp(pc, sh, io), exact && !io.fail)
  {
  }

  lemma SweepDestroySettles(pc: Pc, sh: Shared, io: Io, minted: set<Id>, exact: bool)
    requires pc.Sweep? && pc.point.NextCall? && PickOk(pc, io)
    requires pc.plan.kill == {} ==> pc.plan.pause == {} && pc.plan.demote == {}
    requires PcOk(pc, sh, exact) && ClaimOk(ClaimOf(pc), LedgerOf(sh), minted)
    requires sh.removed !! sh.reg.Keys
    ensures Settles(pc, sh, AdvanceOp(pc, sh, io), exact && !io.fail)
  {
  }

  lemma SweepMarkSettles(pc: Pc, sh: Shared, io: Io, minted: set<Id>, exact: bool)
    requires pc.Sweep? && !pc.point.NextCall?
    requires PcOk(pc, sh, exact) && ClaimOk(ClaimOf(pc), LedgerOf(sh), minted)
    requires sh.removed !! sh.reg.Keys
    ensures Settles(pc, sh, AdvanceOp(pc, sh, io), exact && !io.fail)
  {
    match pc.point
    case FreezeMark(_) => FreezeMarkSettles(pc, sh, io, exact);
    case DemoteMark(_) => DemoteMarkSettles(pc, sh, io, exact);
    case PauseDrop(_) => PauseDropSettles(pc, sh, io, exact);
    case PauseDestroy(_) => PauseDestroySettles(pc, sh, io, minted, exact);
  }

  lemma FreezeMarkSettles(pc: Pc, sh: Shared, io: Io, exact: bool)
    requires pc.Sweep? && pc.point.FreezeMark? && PcOk(pc, sh, exact)
    ensures Settles(pc, sh, AdvanceOp(pc, sh, io), exact && !io.fail)
  {
  }

  lemma DemoteMarkSettles(pc: Pc, sh: Shared, io: Io, exact: bool)
    requires pc.Sweep? && pc.point.DemoteMark? && PcOk(pc, sh, exact)
    ensures Settles(pc, sh, AdvanceOp(pc, sh, io), exact && !io.fail)
  {
  }

  lemma PauseDropSettles(pc: Pc, sh: Shared, io: Io, exact: bool)
    requires pc.Sweep? && pc.point.PauseDrop? && PcOk(pc, sh, exact)
    ensures Settles(pc, sh, AdvanceOp(pc, sh, io), exact && !io.fail)
  {
  }

  lemma PauseDestroySettles(pc: Pc, sh: Shared, io: Io, minted: set<Id>, exact: bool)
    requires pc.Sweep? && pc.point.PauseDestroy?
    requires PcOk(pc, sh, exact) && ClaimOk(ClaimOf(pc), LedgerOf(sh), minted)
    requires sh.removed !! sh.reg.Keys
    ensures Settles(pc, sh, AdvanceOp(pc, sh, io), exact && !io.fail)
  {
  }

  // The same of an operation's first lock region, on ids at rest.
  ghost predicate AtRest(sh: Shared, ids: set<Id>, exact: bool) {
    forall id | id in ids && id in sh.reg :: id in sh.cs && Agrees(exact, sh.reg[id], sh.cs[id])
  }

  ghost predicate Starts(sh: Shared, o: Outcome, exact: bool) {
    && (o.next.Some? ==> PcOk(o.next.value, o.sh, exact))
    && SameOutside(sh, o.sh, NextClaim(o.next).Ids())
  }

  lemma BeginStarts(op: Op, sh: Shared, now: Time, exact: bool)
    requires op.OpSweep? ==> PlanFor(sh.reg, op.policy, now, op.plan)
    requires AtRest(sh, NextClaim(BeginOp(op, sh, now).next).Ids(), exact)
    ensures Starts(sh, BeginOp(op, sh, now), exact)
  {
    if op.OpSweep? {
      SweepClaims(op.policy, op.plan, sh, now);
      SweepStarts(op.policy, op.plan, sh, now, exact);
    } else if op.OpConnect? || op.OpResume? {
      WakeStarts(op, sh, now, exact);
    } else {
      OtherStarts(op, sh, now, exact);
    }
  }

  lemma SweepClaims(policy: Policy, plan: SweepPlan, sh: Shared, now: Time)
    ensures NextClaim(BeginOp(OpSweep(policy, plan), sh,
        now).next).Ids() == plan.kill + plan.gc + plan.pause + plan.demote
  {
  }

  lemma WakeStarts(op: Op, sh: Shared, now: Time, exact: bool)
    requires op.OpConnect? || op.OpResume?
    requires AtRest(sh, NextClaim(BeginOp(op, sh, now).next).Ids(), exact)
    ensures Starts(sh, BeginOp(op, sh, now), exact)
  {
  }

  lemma OtherStarts(op: Op, sh: Shared, now: Time, exact: bool)
    requires !op.OpSweep? && !op.OpConnect? && !op.OpResume?
    requires AtRest(sh, NextClaim(BeginOp(op, sh, now).next).Ids(), exact)
    ensures Starts(sh, BeginOp(op, sh, now), exact)
  {
  }

  lemma SweepStarts(policy: Policy, plan: SweepPlan, sh: Shared, now: Time, exact: bool)
    requires PlanFor(sh.reg, policy, now, plan)
    requires AtRest(sh, plan.kill + plan.gc + plan.pause + plan.demote, exact)
    ensures Starts(sh, BeginOp(OpSweep(policy, plan), sh, now), exact)
  {
    DemotedAreFrozen(sh.reg, policy, now, plan);
    PlannedStarts(policy, plan, sh, now, exact);
  }

  lemma PlannedStarts(policy: Policy, plan: SweepPlan, sh: Shared, now: Time, exact: bool)
    requires plan.demote <= sh.reg.Keys && forall id | id in plan.demote :: FrozenHere(sh, id, exact)
    requires forall id | id in plan.pause :: IsRunning(sh, id) && Flags(sh, id, false, false)
    requires plan.kill + plan.gc !! plan.pause + plan.demote
    ensures Starts(sh, BeginOp(OpSweep(policy, plan), sh, now), exact)
  {
  }

  lemma BeginKeepsCoherent(s: St, l: Label)
    requires l.Begin? && Coherent(s) && Enabled(s, l) && Exclusive(s) && Exclusive(Apply(s, l))
    ensures Coherent(Apply(s, l))
  {
    var s' := Apply(s, l);
    var ids := ClaimAt(s', l.t).Ids();
    forall u: ThreadId | u != l.t ensures ClaimAt(s', u) == ClaimAt(s, u) {}
    forall u: ThreadId ensures ClaimAt(s, u).Ids() !! ids {
      if u != l.t { assert ClaimAt(s', u).Ids() !! ClaimAt(s', l.t).Ids(); }
    }
    assert forall id | id in ids :: Free(s, id);
    BeginStarts(l.op, s.sh, l.now, !s.faulted);
    KeptByOthers(s, s', l.t, ids);
  }

  lemma AdvanceKeepsCoherent(s: St, l: Label)
    requires l.Advance? && Inv(s) && Coherent(s) && Enabled(s, l) && Exclusive(s)
    ensures Coherent(Apply(s, l))
  {
    var s' := Apply(s, l);
    var pc := s.threads[l.t];
    var ids := ClaimAt(s, l.t).Ids();
    forall u: ThreadId | u != l.t ensures ClaimAt(s', u) == ClaimAt(s, u) {}
    assert ClaimOk(ClaimAt(s, l.t), LedgerOf(s.sh), s.minted);
    AdvanceSettles(pc, s.sh, l.io, s.minted, !s.faulted);
    AdvanceFrame(pc, s.sh, l.io);
    KeptByOthers(s, s', l.t, ids);
    assert ClaimAt(s', l.t) == NextClaim(AdvanceOp(pc, s.sh, l.io).next);
    forall id | id in s'.sh.reg && Free(s', id) && id in ids
      ensures id in s'.sh.cs && Agrees(!s'.faulted, s'.sh.reg[id], s'.sh.cs[id])
    {
      assert id !in ClaimAt(s', l.t).Ids();
    }
  }

  // Everything outside the ids thread t was working on stays as it was.
  lemma KeptByOthers(s: St, s': St, t: ThreadId, ids: set<Id>)
    requires Coherent(s) && SameOutside(s.sh, s'.sh, ids) && (s.faulted ==> s'.faulted)
    requires OthersKeepClaims(s, s', t)
    requires forall u | u != t && u in s'.threads :: u in s.threads && s.threads[u] == s'.threads[u]
    requires forall u: ThreadId | u != t :: ClaimAt(s, u).Ids() !! ids
    requires ClaimAt(s, t).Ids() <= ids
    ensures forall id | id in s'.sh.reg && Free(s', id) && id !in ids ::
      id in s'.sh.cs && Agrees(!s'.faulted, s'.sh.reg[id], s'.sh.cs[id])
    ensures forall u | u != t && u in s'.threads :: PcOk(s'.threads[u], s'.sh, !s'.faulted)
  {
    forall u | u != t && u in s'.threads ensures PcOk(s'.threads[u], s'.sh, !s'.faulted) {
      assert ClaimAt(s, u).Ids() !! ids;
      PcOkFrame(s.threads[u], s.sh, s'.sh, ids, !s.faulted, !s'.faulted);
    }
    forall id | id in s'.sh.reg && Free(s', id) && id !in ids
      ensures id in s'.sh.cs && Agrees(!s'.faulted, s'.sh.reg[id], s'.sh.cs[id])
    {
      forall u: ThreadId ensures id !in ClaimAt(s, u).Ids() { if u != t { assert ClaimAt(s', u) == ClaimAt(s, u); } }
      assert Free(s, id);
    }
  }

  // ------------------------------------------------------------- main results

  ghost predicate IsExclusiveRun(states: seq<St>, labels: seq<Label>) {
    IsRun(states, labels) && forall i | 0 <= i < |states| :: Exclusive(states[i])
  }

  lemma {:induction false} RunIsCoherent(states: seq<St>, labels: seq<Label>, i: nat)
    requires IsExclusiveRun(states, labels) && i < |states|
    ensures Coherent(states[i])
  {
    if i > 0 {
      RunIsCoherent(states, labels, i - 1);
      RunKeepsInv(states, labels, i - 1);
      var s, l := states[i - 1], labels[i - 1];
      assert states[i] == Apply(s, l);
      if l.Begin? { BeginKeepsCoherent(s, l); } else { AdvanceKeepsCoherent(s, l); }
    }
  }

  // In every run without overlapping operations on one sandbox, whatever calls
  // fail: a sandbox nobody is working on has a container, and if it is reported
  // running the container is neither frozen nor stopped.
  lemma RegistrySimulatesRuntime(states: seq<St>, labels: seq<Label>, i: nat, id: Id)
    requires IsExclusiveRun(states, labels) && i < |states|
    requires id in states[i].sh.reg && Free(states[i], id)
    ensures var sh := states[i].sh;
      id in sh.cs && Roughly(sh.reg[id], sh.cs[id])
  {
    RunIsCoherent(states, labels, i);
  }

  // ... and in runs where no call fails the two agree exactly.
  lemma RegistryIsExact(states: seq<St>, labels: seq<Label>, i: nat, id: Id)
    requires IsExclusiveRun(states, labels) && i < |states|
    requires forall k | 0 <= k < |labels| :: labels[k].Advance? ==> !labels[k].io.fail
    requires id in states[i].sh.reg && Free(states[i], id)
    ensures var sh := states[i].sh;
      id in sh.cs && Matches(sh.reg[id], sh.cs[id])
  {
    RunIsCoherent(states, labels, i);
    NoFaults(states, labels, i);
  }

  lemma {:induction false} NoFaults(states: seq<St>, labels: seq<Label>, i: nat)
    requires IsRun(states, labels) && i < |states|
    requires forall k | 0 <= k < |labels| :: labels[k].Advance? ==> !labels[k].io.fail
    ensures !states[i].faulted
  {
    if i > 0 {
      NoFaults(states, labels, i - 1);
      FaultsAreRemembered(states[i - 1], labels[i - 1]);
    }
  }
}
