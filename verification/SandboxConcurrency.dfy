// The sandbox manager under every interleaving. A thread is one operation in
// flight; each lock region and each runtime or agent call is one atomic step.
// The lock is released around runtime calls, so between any two steps of one
// thread every other thread may take any number of steps.
module SandboxConcurrency {
  import opened Common
  import opened SandboxModel

  type ThreadId = nat

  // Where a sweep is inside its loops. `pause` and `demote` hold what is left.
  datatype SweepPoint = NextCall | FreezeMark(id: Id) | PauseDrop(id: Id) | PauseDestroy(id: Id) | DemoteMark(id: Id)

  // What an operation does next.
  datatype Pc =
    | CreateCall(req: CreateRequest)
    | CreateAgent(req: CreateRequest, spec: ContainerSpec)
    | CreateUndo(req: CreateRequest)
    | CreateRegister(req: CreateRequest, spec: ContainerSpec)
    | DestroyCall(id: Id)
    | ResumeStart(id: Id)
    | ResumeAgent(id: Id)
    | ResumeHost(id: Id, host: string, port: int)
    | ResumeThaw(id: Id)
    | ResumeMark(id: Id)
    | PauseCall(id: Id)
    | PauseMark(id: Id)
    | StopThaw(id: Id)
    | StopCall(id: Id)
    | StopMark(id: Id)
    | Sweep(now: Time, plan: SweepPlan, point: SweepPoint)

  datatype Op =
    | OpCreate(req: CreateRequest)
    | OpDestroy(id: Id)
    | OpSetTimeout(id: Id, timeout: Time)
    | OpConnect(id: Id, timeout: Time)
    | OpPause(id: Id)
    | OpStop(id: Id)
    | OpResume(id: Id)
    | OpSweep(policy: Policy, plan: SweepPlan)

  // What the environment supplies to one step: the clock, whether the call
  // made by this step fails, the endpoint a started container comes up on, and
  // which entry of its work list a sweep takes next.
  datatype Io = Io(now: Time, fail: bool, host: string, port: int, pick: Id)

  // `removed` and `leaked` record history and steer nothing: the ids ever
  // deleted from the registry, and the ids some Destroy call failed on.
  datatype Shared = Shared(reg: Registry, cs: Containers, removed: set<Id>, leaked: set<Id>)

  // `faulted`: the environment has made some call fail.
  datatype St = St(sh: Shared, threads: map<ThreadId, Pc>, minted: set<Id>, faulted: bool)

  datatype Outcome = Outcome(sh: Shared, next: Option<Pc>)

  // ------------------------------------------------------- first lock regions

  function BeginOp(op: Op, sh: Shared, now: Time): Outcome {
    match op
    case OpCreate(req) => Outcome(sh, Some(CreateCall(req)))
    case OpDestroy(id) =>
      if id !in sh.reg then Outcome(sh, None)
      else Outcome(sh.(reg := sh.reg - {id}, removed := sh.removed + {id}), Some(DestroyCall(id)))
    case OpSetTimeout(id, timeout) =>
      if id !in sh.reg || Lapsed(sh.reg[id], now) then Outcome(sh, None)
      else Outcome(sh.(reg := SetDeadline(sh.reg, id, now + timeout)), None)
    case OpConnect(id, timeout) =>
      if id !in sh.reg || Lapsed(sh.reg[id], now) then Outcome(sh, None)
      else Outcome(sh.(reg := SetDeadline(sh.reg, id, now + timeout)), ResumePoint(id, sh.reg[id]))
    case OpPause(id) =>
      if id !in sh.reg || sh.reg[id].state == Paused then Outcome(sh, None) else Outcome(sh, Some(PauseCall(id)))
    case OpStop(id) =>
      if id !in sh.reg || IsStopped(sh.reg[id]) then Outcome(sh, None)
      else Outcome(sh, Some(if sh.reg[id].pauseMode == Frozen then StopThaw(id) else StopCall(id)))
    case OpResume(id) =>
      if id !in sh.reg then Outcome(sh, None) else Outcome(sh, ResumePoint(id, sh.reg[id]))
    case OpSweep(_, plan) =>
      Outcome(sh.(reg := AfterPlanning(sh.reg, plan), removed := sh.removed + (plan.kill + plan.gc)),
              Some(Sweep(now, plan, NextCall)))
  }

  // Connect and Resume leave a running sandbox alone; a stopped one is booted,
  // any other paused one is thawed.
  function ResumePoint(id: Id, s: Sandbox): Option<Pc> {
    if s.state != Paused then None
    else if s.pauseMode == Stopped then Some(ResumeStart(id))
    else Some(ResumeThaw(id))
  }

  // -------------------------------------------------------------- later steps

  function Call(sh: Shared, r: RtResult): Shared { sh.(cs := r.containers) }

  function CallDestroy(sh: Shared, id: Id, fail: bool): Shared {
    var r := RtDestroy(sh.cs, id, fail);
    Call(sh, r).(leaked := if r.ok then sh.leaked else sh.leaked + {id})
  }

  function AdvanceOp(pc: Pc, sh: Shared, io: Io): Outcome {
    match pc
    case CreateCall(req) =>
      var r := RtCreate(sh.cs, req, io.now, io.fail);
      Outcome(Call(sh, r), if r.ok then Some(CreateAgent(req, r.containers[req.id].spec)) else None)
    case CreateAgent(req, spec) =>
      Outcome(sh, Some(if io.fail then CreateUndo(req) else CreateRegister(req, spec)))
    case CreateUndo(req) => Outcome(CallDestroy(sh, req.id, io.fail), None)
    case CreateRegister(req, spec) =>
      Outcome(sh.(reg := sh.reg[req.id := NewSandbox(req, spec, io.now)]), None)
    case DestroyCall(id) => Outcome(CallDestroy(sh, id, io.fail), None)
    case ResumeStart(id) =>
      var r := RtStart(sh.cs, id, io.fail);
      Outcome(Call(sh, r), if r.ok then Some(ResumeAgent(id)) else None)
    case ResumeAgent(id) =>
      Outcome(sh, if io.fail then None else Some(ResumeHost(id, io.host, io.port)))
    case ResumeHost(id, host, port) =>
      Outcome(sh.(reg := SetAgent(sh.reg, id, host, port)), Some(ResumeMark(id)))
    case ResumeThaw(id) =>
      var r := RtUnpause(sh.cs, id, io.fail);
      Outcome(Call(sh, r), if r.ok then Some(ResumeMark(id)) else None)
    case ResumeMark(id) => Outcome(sh.(reg := MarkRunning(sh.reg, id)), None)
    case PauseCall(id) =>
      var r := RtPause(sh.cs, id, io.fail);
      Outcome(Call(sh, r), if r.ok then Some(PauseMark(id)) else None)
    case PauseMark(id) => Outcome(sh.(reg := MarkFrozen(sh.reg, id, io.now)), None)
    case StopThaw(id) =>
      var r := RtUnpause(sh.cs, id, io.fail);
      Outcome(Call(sh, r), if r.ok then Some(StopCall(id)) else None)
    case StopCall(id) =>
      var r := RtStop(sh.cs, id, io.fail);
      Outcome(Call(sh, r), if r.ok then Some(StopMark(id)) else None)
    case StopMark(id) => Outcome(sh.(reg := MarkStopped(sh.reg, id, io.now)), None)
    case Sweep(_, _, _) => AdvanceSweep(pc, sh, io)
  }

  // One step of the sweep's loops: kills, then freezes, then demotions, then
  // garbage. A freeze that fails is followed by removal and a Destroy.
  function AdvanceSweep(pc: Pc, sh: Shared, io: Io): Outcome
    requires pc.Sweep?
  {
    var plan := pc.plan;
    match pc.point
    case FreezeMark(id) =>
      Outcome(sh.(reg := MarkFrozen(sh.reg, id, pc.now)), Some(pc.(point := NextCall)))
    case PauseDrop(id) =>
      Outcome(sh.(reg := sh.reg - {id}, removed := sh.removed + {id}), Some(pc.(point := PauseDestroy(id))))
    case PauseDestroy(id) =>
      Outcome(CallDestroy(sh, id, io.fail), Some(pc.(point := NextCall)))
    case DemoteMark(id) =>
      Outcome(sh.(reg := MarkDemoted(sh.reg, id, pc.now)), Some(pc.(point := NextCall)))
    case NextCall =>
      var id := io.pick;
      if plan.kill != {} then
        Outcome(CallDestroy(sh, id, io.fail), Some(pc.(plan := plan.(kill := plan.kill - {id}))))
      else if plan.pause != {} then
        var r := RtPause(sh.cs, id, io.fail);
        Outcome(Call(sh, r),
                Some(pc.(plan := plan.(pause := plan.pause - {id}), point := if r.ok then FreezeMark(id)
                    else PauseDrop(id))))
      else if plan.demote != {} then
        var r := RtStop(sh.cs, id, io.fail);
        Outcome(Call(sh, r),
                Some(pc.(plan := plan.(demote := plan.demote - {id}), point := if r.ok then DemoteMark(id)
                    else NextCall)))
      else if plan.gc != {} then
        Outcome(CallDestroy(sh, id, io.fail), Some(pc.(plan := plan.(gc := plan.gc - {id}))))
      else Outcome(sh, None)
  }

  // The list a sweep is working through.
  function WorkList(plan: SweepPlan): set<Id> {
    if plan.kill != {} then plan.kill
    else if plan.pause != {} then plan.pause
    else if plan.demote != {} then plan.demote
    else plan.gc
  }

  predicate PickOk(pc: Pc, io: Io) {
    pc.Sweep? && pc.point.NextCall? && WorkList(pc.plan) != {} ==> io.pick in WorkList(pc.plan)
  }

  // --------------------------------------------------------------------- runs

  datatype Label = Begin(t: ThreadId, op: Op, now: Time) | Advance(t: ThreadId, io: Io)

  // Minted ids are fresh; a sweep picks any plan the code could build.
  ghost predicate Enabled(s: St, l: Label) {
    match l
    case Begin(t, op, now) =>
      && t !in s.threads
      && (op.OpCreate? ==> op.req.id !in s.minted)
      && (op.OpSweep? ==> PlanFor(s.sh.reg, op.policy, now, op.plan))
    case Advance(t, io) => t in s.threads && PickOk(s.threads[t], io)
  }

  function Put(threads: map<ThreadId, Pc>, t: ThreadId, next: Option<Pc>): map<ThreadId, Pc> {
    match next
    case Some(pc) => threads[t := pc]
    case None => threads - {t}
  }

  function Apply(s: St, l: Label): St
    requires l.Advance? ==> l.t in s.threads
  {
    match l
    case Begin(t, op, now) =>
      var o := BeginOp(op, s.sh, now);
      St(o.sh, Put(s.threads, t, o.next), if op.OpCreate? then s.minted + {op.req.id} else s.minted, s.faulted)
    case Advance(t, io) =>
      var o := AdvanceOp(s.threads[t], s.sh, io);
      St(o.sh, Put(s.threads, t, o.next), s.minted, s.faulted || io.fail)
  }

  // The manager right after start-up: nothing in flight, and the registry
  // holds exactly the runtime's containers, each recorded as it is.
  ghost predicate Init(s: St) {
    && s.threads == map[]
    && s.sh.removed == {} && s.sh.leaked == {} && !s.faulted
    && s.sh.reg.Keys == s.sh.cs.Keys <= s.minted
    && forall id | id in s.sh.reg :: Matches(s.sh.reg[id], s.sh.cs[id])
  }

  ghost predicate IsRun(states: seq<St>, labels: seq<Label>) {
    && |states| == |labels| + 1
    && Init(states[0])
    && forall i | 0 <= i < |labels| :: Enabled(states[i], labels[i]) && states[i + 1] == Apply(states[i], labels[i])
  }

  // ------------------------------------------------------- what a thread owns

  // The ids an operation answers for. `waiting`: minted by a Create, no
  // container yet. `built`: container up, not yet registered. `doomed`: taken
  // out of the registry, Destroy still to be called. `handled`: found in the
  // registry, with a step still to come.
  datatype Claim = Claim(waiting: set<Id>, built: set<Id>, doomed: set<Id>, handled: set<Id>) {
    function Ids(): set<Id> { waiting + built + doomed + handled }
  }

  const NO_CLAIM := Claim({}, {}, {}, {})

  function ClaimOf(pc: Pc): Claim {
    match pc
    case CreateCall(req) => NO_CLAIM.(waiting := {req.id})
    case CreateAgent(req, _) => NO_CLAIM.(built := {req.id})
    case CreateUndo(req) => NO_CLAIM.(built := {req.id})
    case CreateRegister(req, _) => NO_CLAIM.(built := {req.id})
    case DestroyCall(id) => NO_CLAIM.(doomed := {id})
    case Sweep(_, plan, point) =>
      Claim({}, {},
            plan.kill + plan.gc + (if point.PauseDestroy? then {point.id} else {}),
            plan.pause + plan.demote
            + (if point.NextCall? || point.PauseDestroy? then {} else {point.id}))
    case _ => NO_CLAIM.(handled := {pc.id})
  }

  function NextClaim(next: Option<Pc>): Claim {
    if next.Some? then ClaimOf(next.value) else NO_CLAIM
  }

  function ClaimAt(s: St, t: ThreadId): Claim {
    if t in s.threads then ClaimOf(s.threads[t]) else NO_CLAIM
  }

  // ------------------------------------------------------------ id bookkeeping

  // Which ids are registered, have a container, were ever deleted from the
  // registry, or had a Destroy call fail.
  datatype Ledger = Ledger(reg: set<Id>, cs: set<Id>, removed: set<Id>, leaked: set<Id>)

  function LedgerOf(sh: Shared): Ledger { Ledger(sh.reg.Keys, sh.cs.Keys, sh.removed, sh.leaked) }

  // What a first lock region may do: mint an id, or move a set of ids from the
  // registry to the thread's charge.
  ghost predicate BeginMove(l: Ledger, minted: set<Id>, l': Ledger, minted': set<Id>, c: Claim) {
    if c.waiting != {} then
      exists id | id !in minted :: l' == l && minted' == minted + {id} && c == NO_CLAIM.(waiting := {id})
    else
      && c.built == {} && c.doomed + c.handled <= l.reg
      && minted' == minted
      && l' == l.(reg := l.reg - c.doomed, removed := l.removed + c.doomed)
  }

  datatype Move = Keep | Birth(id: Id) | Register(id: Id) | Destroyed(id: Id) | Leaked(id: Id) | Drop(id: Id)

  // What any later step may do to the ledger and to its thread's claim.
  ghost predicate StepMove(m: Move, l: Ledger, c: Claim, l': Ledger, c': Claim) {
    && c'.handled <= c.handled
    && match m
       case Keep => l' == l && c'.waiting <= c.waiting && c'.built == c.built && c'.doomed == c.doomed
       case Birth(id) =>
         && id in c.waiting && l' == l.(cs := l.cs + {id})
         && c'.waiting == {} && c'.built == c.built + {id} && c'.doomed == c.doomed
       case Register(id) =>
         && id in c.built && l' == l.(reg := l.reg + {id})
         && c'.waiting == {} && c'.built == c.built - {id} && c'.doomed == c.doomed
       case Destroyed(id) =>
         && id in c.built + c.doomed && l' == l.(cs := l.cs - {id})
         && c'.waiting == {} && c'.built == c.built - {id} && c.doomed - {id} <= c'.doomed <= c.doomed
       case Leaked(id) =>
         && id in c.built + c.doomed && l' == l.(leaked := l.leaked + {id})
         && c'.waiting == {} && c'.built == c.built - {id} && c.doomed - {id} <= c'.doomed <= c.doomed
       case Drop(id) =>
         && id in c.handled && l' == l.(reg := l.reg - {id}, removed := l.removed + {id})
         && c'.waiting == c.waiting && c'.built == c.built && c'.doomed == c.doomed + {id}
  }

  ghost predicate ClaimOk(c: Claim, l: Ledger, minted: set<Id>) {
    && c.waiting + c.built <= minted - l.reg - l.removed - l.leaked
    && c.waiting !! l.cs && c.built <= l.cs && c.waiting !! c.built
    && c.doomed <= l.removed
    && c.handled <= l.reg + l.removed
  }

  // Some operation is going to register or destroy this container.
  ghost predicate InHand(s: St, id: Id) {
    exists t: ThreadId :: id in ClaimAt(s, t).built + ClaimAt(s, t).doomed
  }

  ghost predicate Inv(s: St) {
    var l := LedgerOf(s.sh);
    && l.reg <= l.cs <= s.minted
    && l.removed <= s.minted - l.reg
    && l.leaked <= s.minted - l.reg
    && (forall id | id in l.cs :: id in l.reg || id in l.leaked || InHand(s, id))
    && (forall t: ThreadId :: ClaimOk(ClaimAt(s, t), l, s.minted))
    && (forall t: ThreadId, u: ThreadId | t != u ::
          ClaimAt(s, t).waiting + ClaimAt(s, t).built !! ClaimAt(s, u).waiting + ClaimAt(s, u).built)
  }

  // ---------------------------------------------------- every step is a move

  lemma BeginIsMove(s: St, l: Label)
    requires l.Begin? && Enabled(s, l)
    ensures var s' := Apply(s, l);
      BeginMove(LedgerOf(s.sh), s.minted, LedgerOf(s'.sh), s'.minted, ClaimAt(s', l.t))
  {
    var o := BeginOp(l.op, s.sh, l.now);
    assert ClaimAt(Apply(s, l), l.t) == NextClaim(o.next);
    if l.op.OpCreate? {
    } else {
      BeginRetires(l.op, s.sh, l.now);
    }
  }

  ghost predicate Retires(sh: Shared, o: Outcome) {
    var c := NextClaim(o.next);
    && c.waiting == {} && c.built == {} && c.doomed + c.handled <= sh.reg.Keys
    && LedgerOf(o.sh) == LedgerOf(sh).(reg := sh.reg.Keys - c.doomed, removed := sh.removed + c.doomed)
  }

  lemma BeginRetires(op: Op, sh: Shared, now: Time)
    requires !op.OpCreate?
    requires op.OpSweep? ==> PlanFor(sh.reg, op.policy, now, op.plan)
    ensures Retires(sh, BeginOp(op, sh, now))
  {
    var o := BeginOp(op, sh, now);
    if op.OpSweep? {
      PlanIsRegistered(sh.reg, op.policy, now, op.plan);
      SweepRetires(sh, op.policy, now, op.plan);
    } else if op.OpDestroy? {
      assert op.id in sh.reg ==> o.sh.reg.Keys == sh.reg.Keys - {op.id};
      assert op.id !in sh.reg ==> LedgerOf(o.sh) == LedgerOf(sh);
    } else {
      assert o.sh.reg.Keys == sh.reg.Keys;
      assert LedgerOf(o.sh) == LedgerOf(sh);
    }
  }

  lemma SweepRetires(sh: Shared, policy: Policy, now: Time, plan: SweepPlan)
    requires plan.kill + plan.pause + plan.demote + plan.gc <= sh.reg.Keys
    ensures Retires(sh, BeginOp(OpSweep(policy, plan), sh, now))
  {
    assert AfterPlanning(sh.reg, plan).Keys == sh.reg.Keys - (plan.kill + plan.gc);
  }

  function MoveOf(pc: Pc, sh: Shared, io: Io): Move {
    match pc
    case CreateCall(req) => if RtCreate(sh.cs, req, io.now, io.fail).ok then Birth(req.id) else Keep
    case CreateUndo(req) => DestroyMove(sh, req.id, io)
    case CreateRegister(req, _) => Register(req.id)
    case DestroyCall(id) => DestroyMove(sh, id, io)
    case Sweep(_, plan, point) =>
      (match point
       case PauseDrop(id) => Drop(id)
       case PauseDestroy(id) => DestroyMove(sh, id, io)
       case NextCall =>
         if plan.kill != {} || (plan.pause + plan.demote == {} && plan.gc != {}) then DestroyMove(sh, io.pick, io)
         else Keep
       case _ => Keep)
    case _ => Keep
  }

  function DestroyMove(sh: Shared, id: Id, io: Io): Move {
    if RtDestroy(sh.cs, id, io.fail).ok then Destroyed(id) else Leaked(id)
  }

  lemma DestroyIsMove(sh: Shared, id: Id, io: Io)
    ensures var l := LedgerOf(sh); var l' := LedgerOf(CallDestroy(sh, id, io.fail));
      match DestroyMove(sh, id, io)
      case Destroyed(_) => l' == l.(cs := l.cs - {id})
      case _ => l' == l.(leaked := l.leaked + {id})
  {
    if id in sh.cs { assert (sh.cs - {id}).Keys == sh.cs.Keys - {id}; }
  }

  ghost predicate IsMove(pc: Pc, sh: Shared, io: Io) {
    var o := AdvanceOp(pc, sh, io);
    StepMove(MoveOf(pc, sh, io), LedgerOf(sh), ClaimOf(pc), LedgerOf(o.sh), NextClaim(o.next))
  }

  // The steps of operations on a registered sandbox touch no id set but their own.
  lemma HandlingKeepsKeys(pc: Pc, sh: Shared, io: Io)
    requires !pc.Sweep? && ClaimOf(pc).handled != {}
    ensures LedgerOf(AdvanceOp(pc, sh, io).sh) == LedgerOf(sh)
  {
    var o := AdvanceOp(pc, sh, io);
    assert o.sh.reg.Keys == sh.reg.Keys;
    assert o.sh.cs.Keys == sh.cs.Keys;
  }

  lemma HandlingIsMove(pc: Pc, sh: Shared, io: Io)
    requires !pc.Sweep? && ClaimOf(pc).handled != {}
    ensures IsMove(pc, sh, io)
  {
    HandlingKeepsKeys(pc, sh, io);
    var o := AdvanceOp(pc, sh, io);
    assert o.next.Some? ==> ClaimOf(o.next.value) == ClaimOf(pc);
  }

  lemma CreateIsMove(pc: Pc, sh: Shared, io: Io)
    requires pc.CreateCall? || pc.CreateAgent? || pc.CreateUndo? || pc.CreateRegister? || pc.DestroyCall?
    ensures IsMove(pc, sh, io)
  {
    var o := AdvanceOp(pc, sh, io);
    match pc
    case CreateUndo(req) => DestroyIsMove(sh, req.id, io);
    case DestroyCall(id) => DestroyIsMove(sh, id, io);
    case CreateCall(req) => assert o.next.Some? ==> o.sh.cs.Keys == sh.cs.Keys + {req.id};
    case CreateRegister(req, _) => assert o.sh.reg.Keys == sh.reg.Keys + {req.id};
    case CreateAgent(_, _) => assert LedgerOf(o.sh) == LedgerOf(sh);
  }

  lemma SweepDestroyIsMove(pc: Pc, sh: Shared, io: Io)
    requires pc.Sweep? && pc.point.NextCall? && PickOk(pc, io)
    requires pc.plan.kill != {} || (pc.plan.pause == {} && pc.plan.demote == {} && pc.plan.gc != {})
    ensures IsMove(pc, sh, io)
  {
    DestroyIsMove(sh, io.pick, io);
  }

  lemma SweepCallIsMove(pc: Pc, sh: Shared, io: Io)
    requires pc.Sweep? && pc.point.NextCall? && PickOk(pc, io)
    requires pc.plan.kill == {} && (pc.plan.pause != {} || pc.plan.demote != {} || pc.plan.gc == {})
    ensures IsMove(pc, sh, io)
  {
    var o := AdvanceOp(pc, sh, io);
    assert o.sh.cs.Keys == sh.cs.Keys;
  }

  lemma SweepMarkIsMove(pc: Pc, sh: Shared, io: Io)
    requires pc.Sweep? && !pc.point.NextCall?
    ensures IsMove(pc, sh, io)
  {
    var o := AdvanceOp(pc, sh, io);
    match pc.point
    case PauseDestroy(id) => DestroyIsMove(sh, id, io);
    case PauseDrop(id) => assert o.sh.reg.Keys == sh.reg.Keys - {id};
    case FreezeMark(_) => assert o.sh.reg.Keys == sh.reg.Keys;
    case DemoteMark(_) => assert o.sh.reg.Keys == sh.reg.Keys;
  }

  lemma AdvanceIsMove(pc: Pc, sh: Shared, io: Io)
    requires PickOk(pc, io)
    ensures IsMove(pc, sh, io)
  {
    match pc
    case Sweep(_, plan, point) =>
      if !point.NextCall? {
        SweepMarkIsMove(pc, sh, io);
      } else if plan.kill != {} || (plan.pause == {} && plan.demote == {} && plan.gc != {}) {
        SweepDestroyIsMove(pc, sh, io);
      } else {
        SweepCallIsMove(pc, sh, io);
      }
    case CreateCall(_) => CreateIsMove(pc, sh, io);
    case CreateAgent(_, _) => CreateIsMove(pc, sh, io);
    case CreateUndo(_) => CreateIsMove(pc, sh, io);
    case CreateRegister(_, _) => CreateIsMove(pc, sh, io);
    case DestroyCall(_) => CreateIsMove(pc, sh, io);
    case _ => HandlingIsMove(pc, sh, io);
  }

  // ------------------------------------------------- moves keep the invariant

  // Only thread t's claim differs between s and s'.
  ghost predicate OthersKeepClaims(s: St, s': St, t: ThreadId) {
    forall u: ThreadId | u != t :: ClaimAt(s', u) == ClaimAt(s, u)
  }

  lemma BeginMoveKeepsInv(s: St, s': St, t: ThreadId)
    requires Inv(s) && OthersKeepClaims(s, s', t) && ClaimAt(s, t) == NO_CLAIM
    requires BeginMove(LedgerOf(s.sh), s.minted, LedgerOf(s'.sh), s'.minted, ClaimAt(s', t))
    ensures Inv(s')
  {
    forall id | id in s'.sh.cs ensures id in s'.sh.reg || id in s'.sh.leaked || InHand(s', id) {
      if id !in s.sh.reg && id !in s.sh.leaked {
        var u: ThreadId :| id in ClaimAt(s, u).built + ClaimAt(s, u).doomed;
        assert id in ClaimAt(s', u).built + ClaimAt(s', u).doomed;
      } else if id !in s'.sh.reg && id !in s'.sh.leaked {
        assert id in ClaimAt(s', t).built + ClaimAt(s', t).doomed;
      }
    }
    forall u: ThreadId ensures ClaimOk(ClaimAt(s', u), LedgerOf(s'.sh), s'.minted) {
      assert ClaimOk(ClaimAt(s, u), LedgerOf(s.sh), s.minted);
    }
  }

  lemma StepMoveKeepsInv(s: St, s': St, t: ThreadId, m: Move)
    requires Inv(s) && OthersKeepClaims(s, s', t) && s'.minted == s.minted
    requires StepMove(m, LedgerOf(s.sh), ClaimAt(s, t), LedgerOf(s'.sh), ClaimAt(s', t))
    ensures Inv(s')
  {
    var l, l' := LedgerOf(s.sh), LedgerOf(s'.sh);
    forall id | id in l'.cs ensures id in l'.reg || id in l'.leaked || InHand(s', id) {
      StepMoveCovers(s, s', t, m, id);
    }
    forall u: ThreadId ensures ClaimOk(ClaimAt(s', u), l', s'.minted) {
      assert ClaimOk(ClaimAt(s, u), l, s.minted) && ClaimOk(ClaimAt(s, t), l, s.minted);
    }
    forall u: ThreadId, v: ThreadId | u != v
      ensures ClaimAt(s', u).waiting + ClaimAt(s', u).built !! ClaimAt(s', v).waiting + ClaimAt(s', v).built
    {
      assert ClaimAt(s, u).waiting + ClaimAt(s, u).built !! ClaimAt(s, v).waiting + ClaimAt(s, v).built;
    }
    assert ClaimOk(ClaimAt(s, t), l, s.minted);
  }

  lemma StepMoveCovers(s: St, s': St, t: ThreadId, m: Move, id: Id)
    requires Inv(s) && OthersKeepClaims(s, s', t)
    requires StepMove(m, LedgerOf(s.sh), ClaimAt(s, t), LedgerOf(s'.sh), ClaimAt(s', t))
    requires id in s'.sh.cs
    ensures id in s'.sh.reg || id in s'.sh.leaked || InHand(s', id)
  {
    var l, l' := LedgerOf(s.sh), LedgerOf(s'.sh);
    if (m.Birth? || m.Drop?) && id == m.id {
      assert id in ClaimAt(s', t).built + ClaimAt(s', t).doomed;
    } else if id !in l.reg && id !in l.leaked {
      assert id in l.cs;
      var u: ThreadId :| id in ClaimAt(s, u).built + ClaimAt(s, u).doomed;
      assert u == t || ClaimAt(s', u) == ClaimAt(s, u);
      assert id in l'.reg || id in l'.leaked || id in ClaimAt(s', u).built + ClaimAt(s', u).doomed;
    }
  }

  lemma StepKeepsInv(s: St, l: Label)
    requires Inv(s) && Enabled(s, l)
    ensures Inv(Apply(s, l))
  {
    var s' := Apply(s, l);
    forall u: ThreadId | u != l.t ensures ClaimAt(s', u) == ClaimAt(s, u) {}
    match l
    case Begin(t, op, now) =>
      BeginIsMove(s, l);
      BeginMoveKeepsInv(s, s', t);
    case Advance(t, io) =>
      AdvanceIsMove(s.threads[t], s.sh, io);
      assert ClaimAt(s', t) == NextClaim(AdvanceOp(s.threads[t], s.sh, io).next);
      StepMoveKeepsInv(s, s', t, MoveOf(s.threads[t], s.sh, io));
  }

  lemma {:induction false} RunKeepsInv(states: seq<St>, labels: seq<Label>, i: nat)
    requires IsRun(states, labels) && i < |states|
    ensures Inv(states[i])
  {
    if i > 0 {
      RunKeepsInv(states, labels, i - 1);
      StepKeepsInv(states[i - 1], labels[i - 1]);
    }
  }

  // ----------------------------------------------------------- main results

  // Conservation. In every state of every interleaving: a registered sandbox
  // has a container; and a container is registered, or an operation in flight
  // is about to register or destroy it, or a Destroy call on it failed. The
  // first possibility excludes the other two.
  lemma Conservation(states: seq<St>, labels: seq<Label>, i: nat)
    requires IsRun(states, labels) && i < |states|
    ensures var s := states[i];
      && s.sh.reg.Keys <= s.sh.cs.Keys
      && (forall id | id in s.sh.cs :: id in s.sh.reg || InHand(s, id) || id in s.sh.leaked)
      && (forall id | id in s.sh.reg :: !InHand(s, id) && id !in s.sh.leaked)
  {
    RunKeepsInv(states, labels, i);
    var s := states[i];
    forall id, t: ThreadId | id in s.sh.reg ensures id !in ClaimAt(s, t).built + ClaimAt(s, t).doomed {
      assert ClaimOk(ClaimAt(s, t), LedgerOf(s.sh), s.minted);
    }
  }

  // With nothing in flight, what the runtime holds is the registry plus the
  // containers some failed Destroy left behind.
  lemma ConservationAtRest(states: seq<St>, labels: seq<Label>, i: nat)
    requires IsRun(states, labels) && i < |states| && states[i].threads == map[]
    ensures var sh := states[i].sh;
      sh.reg.Keys == sh.cs.Keys - sh.leaked
  {
    Conservation(states, labels, i);
    var s := states[i];
    assert forall id :: !InHand(s, id);
  }

  // A sandbox that has left the registry never comes back under its id.
  lemma {:induction false} RemovedForGood(states: seq<St>, labels: seq<Label>, i: nat, j: nat, k: nat, id: Id)
    requires IsRun(states, labels) && i <= j <= k < |states|
    requires id in states[i].sh.reg && id !in states[j].sh.reg
    ensures id !in states[k].sh.reg
  {
    LeaversAreRecorded(states, labels, i, j, id);
    RecordOnlyGrows(states, labels, j, k, id);
    RunKeepsInv(states, labels, k);
  }

  lemma StepRecordsLeavers(s: St, l: Label)
    requires Inv(s) && Enabled(s, l)
    ensures var s' := Apply(s, l);
      s.sh.removed <= s'.sh.removed && s.sh.reg.Keys - s'.sh.reg.Keys <= s'.sh.removed
  {
    match l
    case Begin(t, op, now) => BeginIsMove(s, l);
    case Advance(t, io) => AdvanceIsMove(s.threads[t], s.sh, io);
  }

  lemma {:induction false} LeaversAreRecorded(states: seq<St>, labels: seq<Label>, i: nat, j: nat, id: Id)
    requires IsRun(states, labels) && i <= j < |states|
    requires id in states[i].sh.reg
    ensures id in states[j].sh.reg || id in states[j].sh.removed
  {
    if i < j {
      LeaversAreRecorded(states, labels, i, j - 1, id);
      RunKeepsInv(states, labels, j - 1);
      StepRecordsLeavers(states[j - 1], labels[j - 1]);
    }
  }

  lemma {:induction false} RecordOnlyGrows(states: seq<St>, labels: seq<Label>, i: nat, j: nat, id: Id)
    requires IsRun(states, labels) && i <= j < |states|
    requires id in states[i].sh.removed
    ensures id in states[j].sh.removed
  {
    if i < j {
      RecordOnlyGrows(states, labels, i, j - 1, id);
      RunKeepsInv(states, labels, j - 1);
      StepRecordsLeavers(states[j - 1], labels[j - 1]);
    }
  }

  // Unless the environment made a call fail, no Destroy leaves a container:
  // the only Destroy calls that fail are on containers already gone.
  lemma {:induction false} OnlyFaultsLeak(states: seq<St>, labels: seq<Label>, i: nat)
    requires IsRun(states, labels) && i < |states| && !states[i].faulted
    ensures states[i].sh.leaked !! states[i].sh.cs.Keys
  {
    if i > 0 {
      FaultsAreRemembered(states[i - 1], labels[i - 1]);
      assert states[i] == Apply(states[i - 1], labels[i - 1]);
      OnlyFaultsLeak(states, labels, i - 1);
      RunKeepsInv(states, labels, i - 1);
      StepLeaksOnlyFaults(states[i - 1], labels[i - 1]);
    }
  }

  lemma FaultsAreRemembered(s: St, l: Label)
    requires Enabled(s, l)
    ensures Apply(s, l).faulted <==> s.faulted || (l.Advance? && l.io.fail)
  {
  }

  lemma StepLeaksOnlyFaults(s: St, l: Label)
    requires Inv(s) && Enabled(s, l) && !Apply(s, l).faulted && s.sh.leaked !! s.sh.cs.Keys
    ensures var s' := Apply(s, l); s'.sh.leaked !! s'.sh.cs.Keys
  {
    match l
    case Begin(t, op, now) => BeginIsMove(s, l);
    case Advance(t, io) =>
      var m := MoveOf(s.threads[t], s.sh, io);
      AdvanceIsMove(s.threads[t], s.sh, io);
      LeakedWithoutFault(s.threads[t], s.sh, io);
      assert ClaimOk(ClaimAt(s, t), LedgerOf(s.sh), s.minted);
      assert m.Birth? ==> m.id !in s.sh.leaked;
  }

  lemma LeakedWithoutFault(pc: Pc, sh: Shared, io: Io)
    requires !io.fail
    ensures MoveOf(pc, sh, io).Leaked? ==> MoveOf(pc, sh, io).id !in sh.cs
  {
  }

  lemma FaultFreeAtRest(states: seq<St>, labels: seq<Label>, i: nat)
    requires IsRun(states, labels) && i < |states| && states[i].threads == map[] && !states[i].faulted
    ensures states[i].sh.reg.Keys == states[i].sh.cs.Keys
  {
    ConservationAtRest(states, labels, i);
    OnlyFaultsLeak(states, labels, i);
  }
}
