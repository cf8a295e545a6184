// What each store operation promises its caller, told field by field: nothing
// but templates, aliases and the fields given is spoken of.
module TemplatePromises {
  import opened Common
  import opened BuildModel
  import opened TemplateModel

  // Every other template is as it was.
  ghost predicate OthersKept(before: Mem, after: Mem, id: TemplateId) {
    forall k | k != id ::
      && (k in after.templates <==> k in before.templates)
      && (k in before.templates ==> after.templates[k] == before.templates[k])
  }

  ghost predicate WroteOrFailed(answer: Answer, fail: bool) { answer == if fail then FlushFailed else Done }

  // ------------------------------------------------------------------ create

  ghost predicate AsGiven(t: Template, o: CreateOptions, id: TemplateId, now: Time) {
    && t.id == id && t.name == o.name && t.tags == o.tags && t.createdAt == now
    && t.alias == (if o.alias == "" then o.name else o.alias)
    && t.cpuCount == o.cpuCount && t.memoryMB == o.memoryMB
    && t.builds == [] && t.imageTag == "" && t.startCmd == "" && t.readyCmd == "" && !t.isPublic
  }

  ghost predicate CreatePromise(before: Mem, after: Mem, answer: Answer, o: CreateOptions, id: TemplateId, now: Time,
                                fail: bool)
  {
    var alias := if o.alias == "" then o.name else o.alias;
    if alias != "" && alias in before.aliases then answer == AliasTaken && after == before
    else
      && WroteOrFailed(answer, fail)
      && (fail && id !in before.templates ==> after == before)
      && (!fail ==>
            && OthersKept(before, after, id) && id in after.templates && AsGiven(after.templates[id], o, id, now)
            && after.aliases == if alias == "" then before.aliases else before.aliases[alias := id])
  }

  lemma CreateKeepsPromise(m: Mem, o: CreateOptions, id: TemplateId, now: Time, fail: bool)
    ensures var r := CreateReply(m, o, id, now, fail); CreatePromise(m, r.mem, r.answer, o, id, now, fail)
  {
    if fail && id !in m.templates { assert m.templates[id := NewTemplate(o, id, now)] - {id} == m.templates; }
  }

  // -------------------------------------------------------------------- seed

  ghost predicate AsBuiltIn(t: Template, o: SeedOptions, id: TemplateId, buildId: string, now: Time) {
    && t.id == id && t.name == o.alias && t.alias == o.alias && t.createdAt == now && t.tags == [] && !t.isPublic
    && t.imageTag == o.imageTag && t.startCmd == o.startCmd && t.readyCmd == o.readyCmd
    && t.cpuCount == 0 && t.memoryMB == 0
    && |t.builds| == 1 && t.builds[0].id == buildId && t.builds[0].status == Ready && t.builds[0].startedAt == now
  }

  // A known built-in gets the image and commands given and keeps the rest; there
  // is no undo, so all this is so even when the file cannot be written.
  ghost predicate SeedPromise(before: Mem, after: Mem, answer: Answer, o: SeedOptions, id: TemplateId, buildId: string,
                              now: Time, fail: bool)
  {
    if o.alias !in before.aliases then
      && WroteOrFailed(answer, fail) && OthersKept(before, after, id)
      && id in after.templates && AsBuiltIn(after.templates[id], o, id, buildId, now)
      && after.aliases == before.aliases[o.alias := id]
    else if before.aliases[o.alias] !in before.templates then answer == Crashed && after == before
    else
      var known := before.aliases[o.alias];
      && WroteOrFailed(answer, fail) && OthersKept(before, after, known) && after.aliases == before.aliases
      && known in after.templates
      && after.templates[known]
         == before.templates[known].(imageTag := o.imageTag, startCmd := o.startCmd, readyCmd := o.readyCmd)
  }

  lemma SeedKeepsPromise(m: Mem, o: SeedOptions, id: TemplateId, buildId: string, now: Time, fail: bool)
    ensures var r := SeedReply(m, o, id, buildId, now, fail);
            SeedPromise(m, r.mem, r.answer, o, id, buildId, now, fail)
  {
  }

  // ------------------------------------------------------------------ delete

  // The alias goes with its template only if it leads there; a failed delete
  // points it there in any case.
  ghost predicate DeletePromise(before: Mem, after: Mem, answer: Answer, id: TemplateId, fail: bool) {
    if id !in before.templates then answer == NotFound && after == before
    else
      var alias := before.templates[id].alias;
      && WroteOrFailed(answer, fail) && OthersKept(before, after, id)
      && (if fail then id in after.templates && after.templates[id] == before.templates[id]
          else id !in after.templates)
      && (forall a | a != alias || a == "" ::
            && (a in after.aliases <==> a in before.aliases)
            && (a in before.aliases ==> after.aliases[a] == before.aliases[a]))
      && (alias != "" && fail ==> alias in after.aliases && after.aliases[alias] == id)
      && (alias != "" && !fail ==>
            (alias in after.aliases <==> alias in before.aliases && before.aliases[alias] != id))
  }

  lemma DeleteKeepsPromise(m: Mem, id: TemplateId, fail: bool)
    ensures var r := DeleteReply(m, id, fail); DeletePromise(m, r.mem, r.answer, id, fail)
  {
  }

  // ------------------------------------------------------------------ update

  // A change that moves the alias onto another template's is refused and the
  // rest of the change stays; any other is kept whole, with the alias moved.
  ghost predicate UpdatePromise(before: Mem, after: Mem, answer: Answer, id: TemplateId, mutate: Template -> Template,
                                fail: bool)
  {
    if id !in before.templates then answer == NotFound && after == before
    else
      var t, t' := before.templates[id], mutate(before.templates[id]);
      && OthersKept(before, after, id) && id in after.templates
      && if t'.alias != t.alias && t'.alias != "" && t'.alias in before.aliases && before.aliases[t'.alias] != id then
        && answer == AliasTaken && after.templates[id] == t'.(alias := t.alias) && after.aliases == before.aliases
      else
        && WroteOrFailed(answer, fail) && after.templates[id] == t'
        && (t'.alias == t.alias ==> after.aliases == before.aliases)
        && (t'.alias != t.alias ==>
              forall a ::
                && (a in after.aliases <==>
                      (a == t'.alias && a != "") || (a in before.aliases && (a != t.alias || a == "")))
                && (a in after.aliases ==>
                      after.aliases[a] == if a == t'.alias && a != "" then id else before.aliases[a]))
  }

  lemma UpdateKeepsPromise(m: Mem, id: TemplateId, mutate: Template -> Template, fail: bool)
    ensures var r := UpdateMetaReply(m, id, mutate, fail); UpdatePromise(m, r.mem, r.answer, id, mutate, fail)
  {
  }

  ghost predicate AppendPromise(before: Mem, after: Mem, answer: Answer, id: TemplateId, build: BuildRecord,
                                fail: bool)
  {
    if id !in before.templates then answer == NotFound && after == before
    else
      var t := before.templates[id];
      && WroteOrFailed(answer, fail) && after.aliases == before.aliases && OthersKept(before, after, id)
      && id in after.templates
      && after.templates[id] == if fail then t else t.(builds := t.builds + [build])
  }

  lemma AppendKeepsPromise(m: Mem, id: TemplateId, build: BuildRecord, fail: bool)
    ensures var r := AppendBuildReply(m, id, build, fail); AppendPromise(m, r.mem, r.answer, id, build, fail)
  {
  }

  // Position n holds the first build with the id.
  ghost predicate FirstBuild(builds: seq<BuildRecord>, buildId: string, n: nat) {
    n < |builds| && builds[n].id == buildId && forall i | 0 <= i < n :: builds[i].id != buildId
  }

  // The first build with the id is changed, and nothing else.
  ghost predicate ChangePromise(before: Mem, after: Mem, answer: Answer, id: TemplateId, buildId: string,
                                change: BuildRecord -> BuildRecord, fail: bool)
  {
    if id !in before.templates || forall b | b in before.templates[id].builds :: b.id != buildId then
      answer == NotFound && after == before
    else
      var t := before.templates[id];
      && WroteOrFailed(answer, fail) && after.aliases == before.aliases && OthersKept(before, after, id)
      && id in after.templates
      && exists n: nat | FirstBuild(t.builds, buildId, n) ::
           after.templates[id] == t.(builds := t.builds[n := change(t.builds[n])])
  }

  lemma ChangeKeepsPromise(m: Mem, id: TemplateId, buildId: string, change: BuildRecord -> BuildRecord, fail: bool)
    ensures var r := UpdateBuildReply(m, id, buildId, change, fail);
            ChangePromise(m, r.mem, r.answer, id, buildId, change, fail)
  {
    if id in m.templates {
      var t := m.templates[id];
      match FindBuild(t.builds, buildId)
      case None =>
      case Some(n) => assert FirstBuild(t.builds, buildId, n) && t.builds[n] in t.builds;
    }
  }

  // -------------------------------------------------------------------- load

  // Position i is the last to satisfy being filed under the id, or the alias.
  ghost predicate LastWithId(list: seq<Template>, i: nat) {
    i < |list| && list[i].id != "" && forall k | i < k < |list| :: list[k].id != list[i].id
  }

  ghost predicate LastWithAlias(list: seq<Template>, i: nat) {
    && i < |list| && list[i].id != "" && list[i].alias != ""
    && forall k | i < k < |list| && list[k].id != "" :: list[k].alias != list[i].alias
  }

  // Of several templates with an id the last one counts; a template without id
  // is not loaded.
  lemma {:induction false} LastIsLoaded(list: seq<Template>, i: nat)
    requires LastWithId(list, i)
    ensures list[i].id in Loaded(list).templates && Loaded(list).templates[list[i].id] == list[i]
  {
    var front := list[..|list| - 1];
    if i < |front| { assert LastWithId(front, i); LastIsLoaded(front, i); }
  }

  lemma {:induction false} LoadedIsLast(list: seq<Template>, id: TemplateId) returns (i: nat)
    requires id in Loaded(list).templates
    ensures LastWithId(list, i) && list[i].id == id
  {
    i := |list| - 1;
    if list[i].id != id || id == "" { i := LoadedIsLast(list[..|list| - 1], id); }
  }

  // Of several templates with an alias the last one has it.
  lemma {:induction false} LastHasTheAlias(list: seq<Template>, i: nat)
    requires LastWithAlias(list, i)
    ensures list[i].alias in Loaded(list).aliases && Loaded(list).aliases[list[i].alias] == list[i].id
  {
    var front := list[..|list| - 1];
    if i < |front| { assert LastWithAlias(front, i); LastHasTheAlias(front, i); }
  }

  lemma {:induction false} AliasIsTheLasts(list: seq<Template>, a: string) returns (i: nat)
    requires a in Loaded(list).aliases
    ensures LastWithAlias(list, i) && list[i].alias == a
  {
    i := |list| - 1;
    if list[i].id == "" || list[i].alias != a || a == "" { i := AliasIsTheLasts(list[..|list| - 1], a); }
  }
}
