// The template registry and its alias index, operation by operation.
module TemplateModel {
  import opened Common
  import opened BuildModel

  type TemplateId = string

  datatype BuildRecord = BuildRecord(id: string, status: Status, reason: string, startedAt: Time,
      finishedAt: Option<Time>)

  datatype Template = Template(
    id: TemplateId, name: string, tags: seq<string>, alias: string, cpuCount: int, memoryMB: int,
    startCmd: string, readyCmd: string, imageTag: string, isPublic: bool, createdAt: Time,
    builds: seq<BuildRecord>)

  // What the store keeps in memory. A file holds the templates only.
  datatype Mem = Mem(templates: map<TemplateId, Template>, aliases: map<string, TemplateId>)

  const EMPTY := Mem(map[], map[])

  datatype SeedOptions = SeedOptions(alias: string, imageTag: string, startCmd: string, readyCmd: string)

  datatype CreateOptions = CreateOptions(name: string, alias: string, tags: seq<string>, cpuCount: int, memoryMB: int)

  // Crashed is a lookup through an alias that leads nowhere, which the store
  // follows without looking.
  datatype Answer = Done | NotFound | AliasTaken | FlushFailed | Crashed

  // `freshId` is the id the generator would hand out; `fail` says whether
  // writing the file would fail.
  datatype Op =
    | Create(opts: CreateOptions, freshId: TemplateId, now: Time, fail: bool)
    | Seed(seed: SeedOptions, freshId: TemplateId, buildId: string, now: Time, fail: bool)
    | Delete(id: TemplateId, fail: bool)
    | UpdateMeta(id: TemplateId, mutate: Template -> Template, fail: bool)
    | AppendBuild(id: TemplateId, build: BuildRecord, fail: bool)
    | UpdateBuild(id: TemplateId, buildId: string, change: BuildRecord -> BuildRecord, fail: bool)

  // What an operation leaves in memory, what it answers, and whether it wrote
  // the file.
  datatype Reply = Reply(mem: Mem, answer: Answer, wrote: bool)

  function AliasOf(opts: CreateOptions): string { if opts.alias == "" then opts.name else opts.alias }

  function NewTemplate(opts: CreateOptions, id: TemplateId, now: Time): Template {
    Template(id, opts.name, opts.tags, AliasOf(opts), opts.cpuCount, opts.memoryMB, "", "", "", false, now, [])
  }

  function BuiltIn(o: SeedOptions, id: TemplateId, buildId: string, now: Time): Template {
    Template(id, o.alias, [], o.alias, 0, 0, o.startCmd, o.readyCmd, o.imageTag, false, now,
             [BuildRecord(buildId, Ready, "", now, None)])
  }

  function Put(m: Mem, t: Template): Mem { m.(templates := m.templates[t.id := t]) }

  function Point(m: Mem, alias: string, id: TemplateId): Mem { m.(aliases := m.aliases[alias := id]) }

  function Unpoint(m: Mem, alias: string): Mem { m.(aliases := m.aliases - {alias}) }

  function AfterFlush(m: Mem, fail: bool): Reply {
    if fail then Reply(m, FlushFailed, false) else Reply(m, Done, true)
  }

  function CreateReply(m: Mem, opts: CreateOptions, id: TemplateId, now: Time, fail: bool): Reply {
    var alias := AliasOf(opts);
    if alias != "" && alias in m.aliases then Reply(m, AliasTaken, false)
    else
      var put := Put(m, NewTemplate(opts, id, now));
      if fail then Reply(Mem(put.templates - {id}, m.aliases), FlushFailed, false)
      else Reply(if alias == "" then put else Point(put, alias, id), Done, true)
  }

  function SeedReply(m: Mem, o: SeedOptions, id: TemplateId, buildId: string, now: Time, fail: bool): Reply {
    if o.alias in m.aliases then
      var known := m.aliases[o.alias];
      if known !in m.templates then Reply(m, Crashed, false)
      else
        var t := m.templates[known].(imageTag := o.imageTag, startCmd := o.startCmd, readyCmd := o.readyCmd);
        AfterFlush(m.(templates := m.templates[known := t]), fail)
    else AfterFlush(Point(Put(m, BuiltIn(o, id, buildId, now)), o.alias, id), fail)
  }

  function DeleteReply(m: Mem, id: TemplateId, fail: bool): Reply {
    if id !in m.templates then Reply(m, NotFound, false)
    else
      var t := m.templates[id];
      var gone := Mem(m.templates - {id},
                      if t.alias != "" && t.alias in m.aliases && m.aliases[t.alias] == id
                      then m.aliases - {t.alias} else m.aliases);
      if !fail then Reply(gone, Done, true)
      else
        var back := gone.(templates := gone.templates[id := t]);
        Reply(if t.alias == "" then back else Point(back, t.alias, id), FlushFailed, false)
  }

  function UpdateMetaReply(m: Mem, id: TemplateId, mutate: Template -> Template, fail: bool): Reply {
    if id !in m.templates then Reply(m, NotFound, false)
    else
      var t := m.templates[id];
      var t' := mutate(t);
      var changed := m.(templates := m.templates[id := t']);
      if t'.alias == t.alias then AfterFlush(changed, fail)
      else if t'.alias != "" && t'.alias in m.aliases && m.aliases[t'.alias] != id then
        Reply(m.(templates := m.templates[id := t'.(alias := t.alias)]), AliasTaken, false)
      else
        var pointed := if t'.alias == "" then changed else Point(changed, t'.alias, id);
        AfterFlush(if t.alias == "" then pointed else Unpoint(pointed, t.alias), fail)
  }

  function AppendBuildReply(m: Mem, id: TemplateId, build: BuildRecord, fail: bool): Reply {
    if id !in m.templates then Reply(m, NotFound, false)
    else if fail then Reply(m, FlushFailed, false)
    else
      var t := m.templates[id];
      Reply(m.(templates := m.templates[id := t.(builds := t.builds + [build])]), Done, true)
  }

  // The first build with the given id, if any.
  function FindBuild(builds: seq<BuildRecord>, buildId: string): (r: Option<nat>)
    ensures r.Some? ==> r.value < |builds| && builds[r.value].id == buildId
    ensures r.Some? ==> forall i | 0 <= i < r.value :: builds[i].id != buildId
    ensures r.None? ==> forall i | 0 <= i < |builds| :: builds[i].id != buildId
  {
    if builds == [] then None
    else if builds[0].id == buildId then Some(0)
    else
      var r := FindBuild(builds[1..], buildId);
      if r.Some? then Some(r.value + 1) else None
  }

  function UpdateBuildReply(m: Mem, id: TemplateId, buildId: string, change: BuildRecord -> BuildRecord,
      fail: bool): Reply {
    if id !in m.templates then Reply(m, NotFound, false)
    else
      var t := m.templates[id];
      match FindBuild(t.builds, buildId)
      case None => Reply(m, NotFound, false)
      case Some(i) =>
        AfterFlush(m.(templates := m.templates[id := t.(builds := t.builds[i := change(t.builds[i])])]), fail)
  }

  function ReplyTo(m: Mem, op: Op): Reply {
    match op
    case Create(opts, id, now, fail) => CreateReply(m, opts, id, now, fail)
    case Seed(o, id, buildId, now, fail) => SeedReply(m, o, id, buildId, now, fail)
    case Delete(id, fail) => DeleteReply(m, id, fail)
    case UpdateMeta(id, mutate, fail) => UpdateMetaReply(m, id, mutate, fail)
    case AppendBuild(id, build, fail) => AppendBuildReply(m, id, build, fail)
    case UpdateBuild(id, buildId, change, fail) => UpdateBuildReply(m, id, buildId, change, fail)
  }

  // ------------------------------------------------------------------ the file

  // A file's templates in order of creation, each once.
  ghost predicate Lists(list: seq<Template>, templates: map<TemplateId, Template>) {
    && (forall id | id in templates :: templates[id] in list)
    && (forall t | t in list :: t.id in templates && templates[t.id] == t && multiset(list)[t] == 1)
    && InOrder(list)
  }

  ghost predicate InOrder(list: seq<Template>) {
    forall i, j | 0 <= i < j < |list| :: list[i].createdAt <= list[j].createdAt
  }

  // Loading goes through the file in order; a template without id is skipped
  // and the last holder of an alias wins.
  function Loaded(list: seq<Template>): Mem {
    if list == [] then EMPTY
    else
      var m, t := Loaded(list[..|list| - 1]), list[|list| - 1];
      if t.id == "" then m else if t.alias == "" then Put(m, t) else Point(Put(m, t), t.alias, t.id)
  }

  // ------------------------------------------------------------------- lookups

  function ResolveAlias(m: Mem, alias: string): Option<Template> {
    if alias in m.aliases && m.aliases[alias] in m.templates then Some(m.templates[m.aliases[alias]]) else None
  }

  function ResolveNameOrId(m: Mem, s: string): Option<Template> {
    if s == "" then None else if s in m.templates then Some(m.templates[s]) else ResolveAlias(m, s)
  }
}
