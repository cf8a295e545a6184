// What repeated sweeps of the reaper come to: every sandbox a sweep reports has
// moved one or more rungs down from running to gone, sweeps at one instant
// settle, and sweeps that wait out every limit empty the registry.
module SandboxReaper {
  import opened Common
  import opened SandboxModel
  import opened SandboxOps

  predicate WellFormed(s: Sandbox) {
    (s.state == Running && s.pauseMode == NoMode) || IsFrozen(s) || IsStopped(s)
  }

  ghost predicate RegOk(w: World) {
    w.reg.Keys <= w.cs.Keys && forall id | id in w.reg :: WellFormed(w.reg[id])
  }

  function Rank(reg: Registry, id: Id): nat {
    if id !in reg then 0 else if IsStopped(reg[id]) then 1 else if IsFrozen(reg[id]) then 2 else 3
  }

  // One sweep with some plan it could have made.
  ghost predicate Swept(w: World, policy: Policy, now: Time, plan: SweepPlan, f: SweepFaults, w': World) {
    PlanFor(w.reg, policy, now, plan) && w' == SweepWorld(w, plan, now, f)
  }

  // Each reported sandbox falls in rank; every other record is untouched.
  lemma RankFalls(w: World, policy: Policy, now: Time, plan: SweepPlan, f: SweepFaults, w': World, id: Id)
    requires RegOk(w) && Swept(w, policy, now, plan, f, w')
    ensures id in Touched(w.cs, plan, f) ==> Rank(w'.reg, id) < Rank(w.reg, id)
    ensures id !in Touched(w.cs, plan, f) ==>
      (id in w'.reg <==> id in w.reg) && (id in w.reg ==> w'.reg[id] == w.reg[id])
  {
    DemotedAreFrozen(w.reg, policy, now, plan);
  }

  lemma SweepKeepsRegOk(w: World, policy: Policy, now: Time, plan: SweepPlan, f: SweepFaults, w': World)
    requires RegOk(w) && Swept(w, policy, now, plan, f, w')
    ensures RegOk(w')
  {
    DemotedAreFrozen(w.reg, policy, now, plan);
  }

  // ------------------------------------------------ a bound on all that happens

  function AtLeast(reg: Registry, k: nat): set<Id> { set id | id in reg && Rank(reg, id) >= k }

  // The sum of all ranks.
  function Potential(reg: Registry): nat { |AtLeast(reg, 1)| + |AtLeast(reg, 2)| + |AtLeast(reg, 3)| }

  lemma SubsetSize<T>(a: set<T>, b: set<T>)
    requires a <= b
    ensures |b - a| == |b| - |a|
  {
    assert b == a + (b - a);
  }

  lemma UnionSize<T>(a: set<T>, b: set<T>)
    ensures |a + b| <= |a| + |b|
  {
    assert a + b == a + (b - a);
    SubsetSize(b * a, b);
    assert b - b * a == b - a;
  }

  ghost predicate RanksOnlyFall(reg: Registry, reg': Registry) {
    forall id :: Rank(reg', id) <= Rank(reg, id)
  }

  function LevelDrop(reg: Registry, reg': Registry, k: nat): set<Id> { AtLeast(reg, k) - AtLeast(reg', k) }

  lemma LevelShrinks(reg: Registry, reg': Registry, k: nat)
    requires RanksOnlyFall(reg, reg') && k > 0
    ensures |LevelDrop(reg, reg', k)| == |AtLeast(reg, k)| - |AtLeast(reg', k)|
  {
    forall id | id in AtLeast(reg', k) ensures id in AtLeast(reg, k) { assert Rank(reg', id) <= Rank(reg, id); }
    SubsetSize(AtLeast(reg', k), AtLeast(reg, k));
  }

  // A sandbox that falls drops out of some level.
  lemma FallsOutOfLevel(reg: Registry, reg': Registry, id: Id)
    requires Rank(reg', id) < Rank(reg, id)
    ensures id in LevelDrop(reg, reg', 1) || id in LevelDrop(reg, reg', 2) || id in LevelDrop(reg, reg', 3)
  {
    assert id in LevelDrop(reg, reg', Rank(reg, id));
  }

  lemma CoveredByThree<T>(s: set<T>, a: set<T>, b: set<T>, c: set<T>)
    requires forall x | x in s :: x in a || x in b || x in c
    ensures |s| <= |a| + |b| + |c|
  {
    SubsetSize(s, a + b + c);
    UnionSize(a, b);
    UnionSize(a + b, c);
  }

  lemma LowerRanksPay(reg: Registry, reg': Registry, fallen: set<Id>)
    requires RanksOnlyFall(reg, reg')
    requires forall id | id in fallen :: Rank(reg', id) < Rank(reg, id)
    ensures |fallen| + Potential(reg') <= Potential(reg)
  {
    LevelShrinks(reg, reg', 1); LevelShrinks(reg, reg', 2); LevelShrinks(reg, reg', 3);
    forall id | id in fallen
      ensures id in LevelDrop(reg, reg', 1) || id in LevelDrop(reg, reg', 2) || id in LevelDrop(reg, reg', 3)
    {
      FallsOutOfLevel(reg, reg', id);
    }
    CoveredByThree(fallen, LevelDrop(reg, reg', 1), LevelDrop(reg, reg', 2), LevelDrop(reg, reg', 3));
  }

  lemma SweepPays(w: World, policy: Policy, now: Time, plan: SweepPlan, f: SweepFaults, w': World)
    requires RegOk(w) && Swept(w, policy, now, plan, f, w')
    ensures |Touched(w.cs, plan, f)| + Potential(w'.reg) <= Potential(w.reg)
  {
    var touched := Touched(w.cs, plan, f);
    forall id ensures Rank(w'.reg, id) <= Rank(w.reg, id) && (id in touched ==> Rank(w'.reg, id) < Rank(w.reg, id)) {
      RankFalls(w, policy, now, plan, f, w', id);
    }
    LowerRanksPay(w.reg, w'.reg, touched);
  }

  // A run of nothing but sweeps.
  datatype SweepStep = SweepStep(now: Time, plan: SweepPlan, faults: SweepFaults)

  ghost predicate SweepRun(policy: Policy, worlds: seq<World>, steps: seq<SweepStep>) {
    && |worlds| == |steps| + 1
    && RegOk(worlds[0])
    && forall i | 0 <= i < |steps| :: Swept(worlds[i], policy, steps[i].now, steps[i].plan, steps[i].faults,
        worlds[i + 1])
  }

  function TouchCount(worlds: seq<World>, steps: seq<SweepStep>, n: nat): nat
    requires n <= |steps| < |worlds|
  {
    if n == 0 then 0
    else TouchCount(worlds, steps, n - 1) + |Touched(worlds[n - 1].cs, steps[n - 1].plan, steps[n - 1].faults)|
  }

  lemma {:induction false} TouchesArePaid(policy: Policy, worlds: seq<World>, steps: seq<SweepStep>, n: nat)
    requires SweepRun(policy, worlds, steps) && n <= |steps|
    ensures RegOk(worlds[n]) && TouchCount(worlds, steps, n) + Potential(worlds[n].reg) <= Potential(worlds[0].reg)
  {
    if n > 0 {
      TouchesArePaid(policy, worlds, steps, n - 1);
      var s := steps[n - 1];
      SweepPays(worlds[n - 1], policy, s.now, s.plan, s.faults, worlds[n]);
      SweepKeepsRegOk(worlds[n - 1], policy, s.now, s.plan, s.faults, worlds[n]);
    }
  }

  // However many sweeps run, whatever fails and whatever the clock does, they
  // report at most three touches per sandbox registered at the start.
  lemma SweepsAreBounded(policy: Policy, worlds: seq<World>, steps: seq<SweepStep>)
    requires SweepRun(policy, worlds, steps)
    ensures TouchCount(worlds, steps, |steps|) <= 3 * |worlds[0].reg|
  {
    TouchesArePaid(policy, worlds, steps, |steps|);
    var reg := worlds[0].reg;
    SubsetSize(AtLeast(reg, 1), reg.Keys); SubsetSize(AtLeast(reg, 2), reg.Keys); SubsetSize(AtLeast(reg, 3), reg.Keys);
  }

  // --------------------------------------------------- settling at one instant

  ghost predicate Positive(policy: Policy) {
    policy.freezeDuration > 0 && policy.maxFrozen > 0 && policy.stoppedGCAfter > 0
  }

  function FrozenIds(reg: Registry): set<Id> { set id | id in reg && IsFrozen(reg[id]) }

  // Nothing is due at this instant but, perhaps, the cap.
  ghost predicate OnlyCapLeft(reg: Registry, policy: Policy, now: Time) {
    forall id | id in reg :: !Lapsed(reg[id], now) && !Aged(reg[id], policy, now) && !DueToGC(reg[id], policy, now)
  }

  lemma SweepLeavesOnlyCap(w: World, policy: Policy, now: Time, plan: SweepPlan, f: SweepFaults, w': World)
    requires RegOk(w) && Positive(policy) && f.stop == {} && Swept(w, policy, now, plan, f, w')
    ensures OnlyCapLeft(w'.reg, policy, now)
  {
    DemotedAreFrozen(w.reg, policy, now, plan);
  }

  function NewlyFrozen(w: World, plan: SweepPlan, f: SweepFaults): set<Id> {
    set id | id in plan.pause && CallOk(w.cs, id, f.pause)
  }

  lemma FrozenAfterSweep(w: World, policy: Policy, now: Time, plan: SweepPlan, f: SweepFaults, w': World)
    requires RegOk(w) && f.stop == {} && Swept(w, policy, now, plan, f, w')
    ensures FrozenIds(w'.reg) == (FreshFrozen(w.reg, policy, now) - plan.demote) + NewlyFrozen(w, plan, f)
  {
    DemotedAreFrozen(w.reg, policy, now, plan);
  }

  lemma SweepRespectsCap(w: World, policy: Policy, now: Time, plan: SweepPlan, f: SweepFaults, w': World)
    requires RegOk(w) && Positive(policy) && f.stop == {} && Swept(w, policy, now, plan, f, w')
    ensures |FrozenIds(w'.reg)| <= policy.maxFrozen + |NewlyFrozen(w, plan, f)|
  {
    FrozenAfterSweep(w, policy, now, plan, f, w');
    var young := FreshFrozen(w.reg, policy, now);
    var victims := plan.demote - AgedFrozen(w.reg, policy, now);
    assert young - plan.demote == young - victims;
    SubsetSize(victims, young);
    UnionSize(young - plan.demote, NewlyFrozen(w, plan, f));
  }

  // Three sweeps at one instant, with Stop succeeding: the first leaves at most
  // the cap plus those it has just frozen, the second at most the cap, and the
  // third has nothing to do.
  lemma ReaperConverges(w0: World, w1: World, w2: World, w3: World, policy: Policy, now: Time,
                        p1: SweepPlan, p2: SweepPlan, p3: SweepPlan, f1: SweepFaults, f2: SweepFaults, f3: SweepFaults)
    requires RegOk(w0) && Positive(policy) && f1.stop == {} && f2.stop == {}
    requires Swept(w0, policy, now, p1, f1, w1) && Swept(w1, policy, now, p2, f2, w2) &&
        Swept(w2, policy, now, p3, f3, w3)
    ensures |FrozenIds(w1.reg)| <= policy.maxFrozen + |NewlyFrozen(w0, p1, f1)|
    ensures |FrozenIds(w2.reg)| <= policy.maxFrozen
    ensures Touched(w2.cs, p3, f3) == {} && w3 == w2
  {
    SweepRespectsCap(w0, policy, now, p1, f1, w1);
    SweepLeavesOnlyCap(w0, policy, now, p1, f1, w1);
    SweepKeepsRegOk(w0, policy, now, p1, f1, w1);
    SweepRespectsCap(w1, policy, now, p2, f2, w2);
    assert p2.pause == {};
    SweepLeavesOnlyCap(w1, policy, now, p2, f2, w2);
    SweepKeepsRegOk(w1, policy, now, p2, f2, w2);
    NothingDue(w2, policy, now, p3, f3, w3);
  }

  lemma NothingDue(w: World, policy: Policy, now: Time, plan: SweepPlan, f: SweepFaults, w': World)
    requires OnlyCapLeft(w.reg, policy, now) && |FrozenIds(w.reg)| <= policy.maxFrozen
    requires Swept(w, policy, now, plan, f, w')
    ensures plan == SweepPlan({}, {}, {}, {}) && w' == w
  {
    assert FreshFrozen(w.reg, policy, now) == FrozenIds(w.reg);
    assert AgedFrozen(w.reg, policy, now) == {};
    assert plan.demote - {} == {};
    assert w'.reg == w.reg;
    assert w'.cs == w.cs;
  }

  // ------------------------------------------------------ waiting out the limits

  ghost predicate AllPaused(reg: Registry, since: Time) {
    forall id | id in reg :: (IsFrozen(reg[id]) || IsStopped(reg[id])) && reg[id].pausedAt <= since
  }

  // Three sweeps empty the registry when the first comes after every deadline
  // and pause, the second a freeze period later with Stop succeeding, and the
  // third a collection period after that. Other calls may fail.
  lemma ThreeSweepsEmptyTheRegistry(
      w0: World, w1: World, w2: World, w3: World, policy: Policy, t1: Time, t2: Time, t3: Time,
      p1: SweepPlan, p2: SweepPlan, p3: SweepPlan, f1: SweepFaults, f2: SweepFaults, f3: SweepFaults)
    requires RegOk(w0) && Positive(policy) && f2.stop == {}
    requires Swept(w0, policy, t1, p1, f1, w1) && Swept(w1, policy, t2, p2, f2, w2) && Swept(w2, policy, t3, p3, f3, w3)
    requires forall id | id in w0.reg :: if w0.reg[id].state == Running then w0.reg[id].expiresAt <= t1
        else w0.reg[id].pausedAt <= t1
    requires t2 - t1 >= policy.freezeDuration && t3 - t2 >= policy.stoppedGCAfter
    ensures w3.reg == map[]
  {
    FirstPausesAll(w0, policy, t1, p1, f1, w1);
    SweepKeepsRegOk(w0, policy, t1, p1, f1, w1);
    SecondStopsAll(w1, policy, t1, t2, p2, f2, w2);
    assert forall id | id in w2.reg :: id in p3.gc;
  }

  lemma FirstPausesAll(w: World, policy: Policy, now: Time, plan: SweepPlan, f: SweepFaults, w': World)
    requires RegOk(w) && Swept(w, policy, now, plan, f, w')
    requires forall id | id in w.reg :: if w.reg[id].state == Running then w.reg[id].expiresAt <= now
        else w.reg[id].pausedAt <= now
    ensures AllPaused(w'.reg, now)
  {
    DemotedAreFrozen(w.reg, policy, now, plan);
  }

  lemma SecondStopsAll(w: World, policy: Policy, since: Time, now: Time, plan: SweepPlan, f: SweepFaults, w': World)
    requires RegOk(w) && Positive(policy) && f.stop == {} && Swept(w, policy, now, plan, f, w')
    requires AllPaused(w.reg, since) && now - since >= policy.freezeDuration
    ensures forall id | id in w'.reg :: IsStopped(w'.reg[id]) && w'.reg[id].pausedAt <= now
  {
    forall id | id in w'.reg ensures IsStopped(w'.reg[id]) && w'.reg[id].pausedAt <= now {
      if IsFrozen(w.reg[id]) { assert id in AgedFrozen(w.reg, policy, now); }
    }
  }
}
