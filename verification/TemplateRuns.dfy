// What every run of the template store keeps.
module TemplateRuns {
  import opened Common
  import opened BuildModel
  import opened TemplateModel

  ghost predicate TemplateOk(m: Mem, id: TemplateId) {
    id in m.templates ==>
      var t := m.templates[id];
      t.id == id && id != "" && (t.alias != "" ==> t.alias in m.aliases && m.aliases[t.alias] == id)
  }

  ghost predicate AliasOk(m: Mem, a: string) {
    a in m.aliases ==> a != "" && m.aliases[a] in m.templates && m.templates[m.aliases[a]].alias == a
  }

  // The alias index is the inverse of the templates' non-empty aliases.
  ghost predicate Coherent(m: Mem) {
    (forall id :: TemplateOk(m, id)) && (forall a :: AliasOk(m, a))
  }

  // What the operations are called with: an id nobody has, a mutator that
  // leaves the id alone.
  ghost predicate Legal(m: Mem, op: Op) {
    match op
    case Create(_, id, _, _) => id != "" && id !in m.templates
    case Seed(_, id, _, _, _) => id != "" && id !in m.templates
    case UpdateMeta(_, mutate, _) => forall t :: mutate(t).id == t.id
    case _ => true
  }

  predicate NamelessSeed(op: Op) { op.Seed? && op.seed.alias == "" }

  // ------------------------------------------------------------- one operation

  lemma CreateKeepsCoherent(m: Mem, op: Op)
    requires Coherent(m) && Legal(m, op) && op.Create?
    ensures Coherent(ReplyTo(m, op).mem)
  {
    var r := ReplyTo(m, op);
    if op.fail && r.answer.FlushFailed? { assert r.mem.templates == m.templates; }
    forall id ensures TemplateOk(r.mem, id) { assert TemplateOk(m, id); }
    forall a ensures AliasOk(r.mem, a) { assert AliasOk(m, a); }
  }

  // A failed delete puts everything back; that takes coherence, since the alias
  // is re-pointed even if it did not point here before.
  lemma FailedDeleteRestores(m: Mem, id: TemplateId)
    requires id in m.templates
    ensures var t := m.templates[id];
            DeleteReply(m, id, true).mem == m <==> t.alias == "" || (t.alias in m.aliases && m.aliases[t.alias] == id)
  {
    var t := m.templates[id];
    var r := DeleteReply(m, id, true).mem;
    assert r.templates == m.templates;
    if t.alias != "" && t.alias in m.aliases && m.aliases[t.alias] == id { assert r.aliases == m.aliases; }
    if t.alias != "" && r == m { assert t.alias in r.aliases && r.aliases[t.alias] == id; }
  }

  lemma DeleteKeepsCoherent(m: Mem, op: Op)
    requires Coherent(m) && op.Delete?
    ensures Coherent(ReplyTo(m, op).mem)
  {
    if op.id in m.templates {
      assert TemplateOk(m, op.id);
      if op.fail { FailedDeleteRestores(m, op.id); }
    }
    var r := ReplyTo(m, op);
    forall id ensures TemplateOk(r.mem, id) { assert TemplateOk(m, id); }
    forall a ensures AliasOk(r.mem, a) { assert AliasOk(m, a); }
  }

  lemma UpdateKeepsTemplate(m: Mem, op: Op, id: TemplateId)
    requires TemplateOk(m, id) && Legal(m, op) && op.UpdateMeta? && TemplateOk(m, op.id)
    ensures TemplateOk(ReplyTo(m, op).mem, id)
  {
    if op.id in m.templates { assert op.mutate(m.templates[op.id]).id == op.id; }
  }

  lemma UpdateKeepsAlias(m: Mem, op: Op, a: string)
    requires AliasOk(m, a) && op.UpdateMeta? && TemplateOk(m, op.id)
    ensures AliasOk(ReplyTo(m, op).mem, a)
  {
  }

  lemma UpdateKeepsCoherent(m: Mem, op: Op)
    requires Coherent(m) && Legal(m, op) && op.UpdateMeta?
    ensures Coherent(ReplyTo(m, op).mem)
  {
    forall id ensures TemplateOk(ReplyTo(m, op).mem, id) { UpdateKeepsTemplate(m, op, id); }
    forall a ensures AliasOk(ReplyTo(m, op).mem, a) { UpdateKeepsAlias(m, op, a); }
  }

  lemma SeedKeepsTemplate(m: Mem, op: Op, id: TemplateId)
    requires TemplateOk(m, id) && Legal(m, op) && op.Seed?
    ensures TemplateOk(ReplyTo(m, op).mem, id)
  {
  }

  lemma SeedKeepsAlias(m: Mem, op: Op, a: string)
    requires op.Seed? && Legal(m, op) && AliasOk(m, a) && AliasOk(m, op.seed.alias)
    ensures AliasOk(ReplyTo(m, op).mem, a) <==> a != "" || op.seed.alias != ""
  {
  }

  // Seeding keeps the index right exactly when the built-in has an alias.
  lemma SeedNeedsAnAlias(m: Mem, op: Op)
    requires Coherent(m) && Legal(m, op) && op.Seed?
    ensures Coherent(ReplyTo(m, op).mem) <==> op.seed.alias != ""
  {
    assert AliasOk(m, op.seed.alias);
    forall id ensures TemplateOk(ReplyTo(m, op).mem, id) { assert TemplateOk(m, id); SeedKeepsTemplate(m, op, id); }
    forall a ensures AliasOk(ReplyTo(m, op).mem, a) <==> a != "" || op.seed.alias != "" {
      assert AliasOk(m, a);
      SeedKeepsAlias(m, op, a);
    }
    assert AliasOk(ReplyTo(m, op).mem, "") <==> op.seed.alias != "";
  }

  lemma BuildKeepsCoherent(m: Mem, op: Op)
    requires Coherent(m) && (op.AppendBuild? || op.UpdateBuild?)
    ensures Coherent(ReplyTo(m, op).mem)
  {
    var r := ReplyTo(m, op);
    forall id ensures TemplateOk(r.mem, id) { assert TemplateOk(m, id); }
    forall a ensures AliasOk(r.mem, a) { assert AliasOk(m, a); }
  }

  lemma StepKeepsCoherent(m: Mem, op: Op)
    requires Coherent(m) && Legal(m, op) && !NamelessSeed(op)
    ensures Coherent(ReplyTo(m, op).mem)
  {
    match op
    case Create(_, _, _, _) => CreateKeepsCoherent(m, op);
    case Seed(_, _, _, _, _) => SeedNeedsAnAlias(m, op);
    case Delete(_, _) => DeleteKeepsCoherent(m, op);
    case UpdateMeta(_, _, _) => UpdateKeepsCoherent(m, op);
    case AppendBuild(_, _, _) => BuildKeepsCoherent(m, op);
    case UpdateBuild(_, _, _, _) => BuildKeepsCoherent(m, op);
  }

  // A Create, Delete or AppendBuild that does not succeed changes nothing.
  lemma FailureLeavesMemoryAlone(m: Mem, op: Op)
    requires Coherent(m) && Legal(m, op)
    requires op.Create? || op.Delete? || op.AppendBuild?
    requires !ReplyTo(m, op).answer.Done?
    ensures ReplyTo(m, op) == Reply(m, ReplyTo(m, op).answer, false)
  {
    match op
    case Create(_, id, _, _) =>
      if ReplyTo(m, op).answer.FlushFailed? { assert ReplyTo(m, op).mem.templates == m.templates; }
    case Delete(id, fail) =>
      if id in m.templates {
        assert TemplateOk(m, id);
        FailedDeleteRestores(m, id);
      }
    case _ =>
  }

  // UpdateMeta has no such undo. When its write fails the change stays; when it
  // is refused for the alias, everything but the alias stays.
  lemma FailedUpdateLeavesTheChange(m: Mem, id: TemplateId, mutate: Template -> Template, fail: bool)
    requires Coherent(m) && id in m.templates && mutate(m.templates[id]).id == id
    ensures var t, r := m.templates[id], UpdateMetaReply(m, id, mutate, fail);
            && (r.answer.AliasTaken? ==> (r.mem == m <==> mutate(t).(alias := t.alias) == t))
            && (r.answer.FlushFailed? ==> (r.mem == m <==> mutate(t) == t))
  {
    var t, r := m.templates[id], UpdateMetaReply(m, id, mutate, fail);
    assert r.mem.templates[id] == if r.answer.AliasTaken? then mutate(t).(alias := t.alias) else mutate(t);
    if r.mem.templates[id] == t { assert r.mem.templates == m.templates; }
  }

  // ------------------------------------------------------------------- reloading

  // What the first n templates of a file load as: the memory, cut down to them.
  ghost predicate TemplatesSoFar(list: seq<Template>, n: nat, m: Mem)
    requires n <= |list|
  {
    var l := Loaded(list[..n]).templates;
    && (forall i | 0 <= i < n :: list[i].id in l)
    && (forall id | id in l :: id in m.templates && l[id] == m.templates[id])
  }

  ghost predicate AliasesSoFar(list: seq<Template>, n: nat, m: Mem)
    requires n <= |list|
  {
    var l := Loaded(list[..n]).aliases;
    && (forall i | 0 <= i < n && list[i].alias != "" :: list[i].alias in l)
    && (forall a | a in l :: a in m.aliases && l[a] == m.aliases[a])
  }

  lemma LoadedOneMore(list: seq<Template>, n: nat)
    requires n < |list| && list[n].id != ""
    ensures var t, l := list[n], Loaded(list[..n]);
            Loaded(list[..n + 1]) ==
            Mem(l.templates[t.id := t], if t.alias == "" then l.aliases else l.aliases[t.alias := t.id])
  {
    assert list[..n + 1][..n] == list[..n];
  }

  lemma TemplatesOneMore(list: seq<Template>, n: nat, m: Mem)
    requires n < |list| && TemplatesSoFar(list, n, m)
    requires var t := list[n]; t.id != "" && t.id in m.templates && m.templates[t.id] == t
    ensures TemplatesSoFar(list, n + 1, m)
  {
    LoadedOneMore(list, n);
  }

  lemma AliasesOneMore(list: seq<Template>, n: nat, m: Mem)
    requires n < |list| && AliasesSoFar(list, n, m) && list[n].id != ""
    requires var t := list[n]; t.alias != "" ==> t.alias in m.aliases && m.aliases[t.alias] == t.id
    ensures AliasesSoFar(list, n + 1, m)
  {
    LoadedOneMore(list, n);
  }

  lemma ListedTemplateIsOk(list: seq<Template>, n: nat, m: Mem)
    requires Coherent(m) && Lists(list, m.templates) && n < |list|
    ensures var t := list[n];
            && t.id != "" && t.id in m.templates && m.templates[t.id] == t
            && (t.alias != "" ==> t.alias in m.aliases && m.aliases[t.alias] == t.id)
  {
    assert list[n] in list;
    assert TemplateOk(m, list[n].id);
  }

  lemma LoadsOneMore(list: seq<Template>, n: nat, m: Mem)
    requires Coherent(m) && Lists(list, m.templates) && n < |list|
    requires TemplatesSoFar(list, n, m) && AliasesSoFar(list, n, m)
    ensures TemplatesSoFar(list, n + 1, m) && AliasesSoFar(list, n + 1, m)
  {
    ListedTemplateIsOk(list, n, m);
    TemplatesOneMore(list, n, m);
    AliasesOneMore(list, n, m);
  }

  lemma LoadsNone(list: seq<Template>, m: Mem)
    ensures TemplatesSoFar(list, 0, m) && AliasesSoFar(list, 0, m)
  {
  }

  lemma {:induction false} LoadsPrefix(list: seq<Template>, n: nat, m: Mem)
    requires Coherent(m) && Lists(list, m.templates) && n <= |list|
    ensures TemplatesSoFar(list, n, m) && AliasesSoFar(list, n, m)
  {
    if n == 0 {
      LoadsNone(list, m);
    } else {
      LoadsPrefix(list, n - 1, m);
      LoadsOneMore(list, n - 1, m);
    }
  }

  // Whatever order the map was walked in and however equal times were sorted,
  // the file loads as the memory it was written from.
  lemma ReloadIsExact(list: seq<Template>, m: Mem)
    requires Coherent(m) && Lists(list, m.templates)
    ensures Loaded(list) == m
  {
    LoadsPrefix(list, |list|, m);
    assert list[..|list|] == list;
    forall id | id in m.templates
      ensures id in Loaded(list).templates
    {
      assert TemplateOk(m, id);
      var i :| 0 <= i < |list| && list[i] == m.templates[id];
    }
    assert Loaded(list).templates == m.templates;
    forall a | a in m.aliases
      ensures a in Loaded(list).aliases
    {
      assert AliasOk(m, a);
      var i :| 0 <= i < |list| && list[i] == m.templates[m.aliases[a]];
    }
    assert Loaded(list).aliases == m.aliases;
  }

  // ------------------------------------------------------------------ whole runs

  datatype St = St(mem: Mem, file: Option<seq<Template>>)

  // The file after an operation: some listing of the templates if it wrote,
  // the same as before if not.
  ghost predicate Next(s: St, op: Op, s': St) {
    var r := ReplyTo(s.mem, op);
    && s'.mem == r.mem
    && (if r.wrote then s'.file.Some? && Lists(s'.file.value, r.mem.templates) else s'.file == s.file)
  }

  ghost predicate IsRun(states: seq<St>, ops: seq<Op>) {
    && |states| == |ops| + 1
    && states[0] == St(EMPTY, None)
    && forall i | 0 <= i < |ops| ::
         Legal(states[i].mem, ops[i]) && !NamelessSeed(ops[i]) && Next(states[i], ops[i], states[i + 1])
  }

  lemma {:induction false} RunIsCoherent(states: seq<St>, ops: seq<Op>, i: nat)
    requires IsRun(states, ops) && i < |states|
    ensures Coherent(states[i].mem)
  {
    if i > 0 {
      RunIsCoherent(states, ops, i - 1);
      StepKeepsCoherent(states[i - 1].mem, ops[i - 1]);
    }
  }

  // Looking up by alias finds exactly the template that carries it.
  lemma AliasFindsItsTemplate(states: seq<St>, ops: seq<Op>, i: nat, alias: string, t: Template)
    requires IsRun(states, ops) && i < |states|
    ensures ResolveAlias(states[i].mem, alias) == Some(t)
       <==> alias != "" && t.alias == alias && t.id in states[i].mem.templates && states[i].mem.templates[t.id] == t
  {
    RunIsCoherent(states, ops, i);
    assert AliasOk(states[i].mem, alias) && TemplateOk(states[i].mem, t.id);
    if ResolveAlias(states[i].mem, alias) == Some(t) { assert TemplateOk(states[i].mem, states[i].mem.aliases[alias]); }
  }

  // A name is taken for an id first, for an alias only if nobody has that id.
  lemma IdsComeFirst(states: seq<St>, ops: seq<Op>, i: nat, s: string, t: Template)
    requires IsRun(states, ops) && i < |states|
    ensures var m := states[i].mem;
            ResolveNameOrId(m, s) == Some(t) <==>
            s != "" && t.id in m.templates && m.templates[t.id] == t && (t.id == s || (s !in m.templates &&
                t.alias == s))
  {
    AliasFindsItsTemplate(states, ops, i, s, t);
    RunIsCoherent(states, ops, i);
    assert TemplateOk(states[i].mem, s);
  }

  // Memory and file say the same: a restart would lose nothing.
  ghost predicate InStep(s: St) {
    (if s.file.Some? then Loaded(s.file.value) else EMPTY) == s.mem
  }

  // Answers after which memory may be ahead of the file: the operations
  // without undo, when they do not succeed.
  ghost predicate Clean(m: Mem, op: Op) {
    var answer := ReplyTo(m, op).answer;
    op.Create? || op.Delete? || op.AppendBuild? || answer.Done? || answer.NotFound?
  }

  lemma CleanStepStaysInStep(s: St, op: Op, s': St)
    requires Coherent(s.mem) && Legal(s.mem, op) && !NamelessSeed(op) && Next(s, op, s') && Clean(s.mem, op) &&
        InStep(s)
    ensures InStep(s')
  {
    var r := ReplyTo(s.mem, op);
    if r.wrote {
      StepKeepsCoherent(s.mem, op);
      ReloadIsExact(s'.file.value, r.mem);
    } else if op.Create? || op.Delete? || op.AppendBuild? {
      FailureLeavesMemoryAlone(s.mem, op);
    }
  }

  // After any successful change, reloading gives the memory back.
  lemma SuccessIsDurable(states: seq<St>, ops: seq<Op>, i: nat)
    requires IsRun(states, ops) && i < |ops| && ReplyTo(states[i].mem, ops[i]).answer.Done?
    ensures InStep(states[i + 1])
  {
    RunIsCoherent(states, ops, i + 1);
    ReloadIsExact(states[i + 1].file.value, states[i + 1].mem);
  }

  // And it stays so until an operation without undo fails.
  lemma {:induction false} RestartLosesNothing(states: seq<St>, ops: seq<Op>, i: nat)
    requires IsRun(states, ops) && i < |states|
    requires forall k | 0 <= k < i :: Clean(states[k].mem, ops[k])
    ensures InStep(states[i])
  {
    if i > 0 {
      RestartLosesNothing(states, ops, i - 1);
      RunIsCoherent(states, ops, i - 1);
      CleanStepStaysInStep(states[i - 1], ops[i - 1], states[i]);
    }
  }

  // A built-in without an alias, once deleted, leaves an alias that leads
  // nowhere, and seeding it again crashes.
  lemma NamelessSeedCrashes(o: SeedOptions, a: TemplateId, b: TemplateId, build: string, now: Time)
    requires o.alias == "" && a != b
    ensures var seeded := SeedReply(EMPTY, o, a, build, now, false);
            var deleted := DeleteReply(seeded.mem, a, false);
            && !Coherent(seeded.mem) && deleted.answer.Done?
            && SeedReply(deleted.mem, o, b, build, now, false).answer.Crashed?
  {
    var seeded := SeedReply(EMPTY, o, a, build, now, false);
    assert !AliasOk(seeded.mem, "");
  }

  // Without nameless seeds it never does.
  lemma NoCrash(states: seq<St>, ops: seq<Op>, i: nat)
    requires IsRun(states, ops) && i < |ops|
    ensures !ReplyTo(states[i].mem, ops[i]).answer.Crashed?
  {
    RunIsCoherent(states, ops, i);
    if ops[i].Seed? { assert AliasOk(states[i].mem, ops[i].seed.alias); }
  }
}
