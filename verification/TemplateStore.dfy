// The store as an object: two maps changed in place, with undo where the
// store has it, and a file rewritten after every change.
module TemplateStore {
  import opened Common
  import opened BuildModel
  import opened TemplateModel

  class Store {
    const persistent: bool                  // false for a store without a path
    var templates: map<TemplateId, Template>
    var aliases: map<string, TemplateId>
    var file: Option<seq<Template>>

    ghost function View(): Mem
      reads this
    {
      Mem(templates, aliases)
    }

    // Every template is filed under its own id.
    ghost predicate Filed()
      reads this
    {
      forall id | id in templates :: templates[id].id == id
    }

    // What the file is after an operation that wrote it or left it alone.
    ghost predicate FileIs(before: Option<seq<Template>>, wrote: bool)
      reads this
    {
      if wrote && persistent then file.Some? && Lists(file.value, templates) else file == before
    }

    constructor (path: bool, disk: Option<seq<Template>>)
      ensures persistent == path && file == disk && View() == EMPTY && Filed()
    {
      persistent, file, templates, aliases := path, disk, map[], map[];
    }

    // `fail`: the file cannot be read or parsed; nothing is loaded then.
    method Load(fail: bool) returns (ok: bool)
      requires View() == EMPTY
      modifies this`templates, this`aliases
      ensures ok <==> !(fail && persistent && file.Some?)
      ensures View() == if ok && persistent && file.Some? then Loaded(file.value) else EMPTY
      ensures Filed()
    {
      if !persistent || file.None? { return true; }
      if fail { return false; }
      var list := file.value;
      for i := 0 to |list|
        invariant View() == Loaded(list[..i]) && Filed()
      {
        assert list[..i + 1][..i] == list[..i];
        var t := list[i];
        if t.id != "" {
          templates := templates[t.id := t];
          if t.alias != "" { aliases := aliases[t.alias := t.id]; }
        }
      }
      assert list[..|list|] == list;
      ok := true;
    }

    // Any order of the map will do: the list is sorted before it is written.
    method Flush(fail: bool) returns (ok: bool)
      requires Filed()
      modifies this`file
      ensures ok == (!persistent || !fail) && FileIs(old(file), ok)
    {
      if !persistent { return true; }
      var list: seq<Template> := [];
      var rest := templates.Keys;
      while rest != {}
        invariant rest <= templates.Keys
        invariant forall id | id in templates && id !in rest :: templates[id] in list
        invariant forall t | t in list ::
          && t.id in templates && t.id !in rest && templates[t.id] == t
          && multiset(list)[t] == 1
        decreases |rest|
      {
        var id :| id in rest;
        rest := rest - {id};
        list := list + [templates[id]];
      }
      ghost var gathered := list;
      list := SortByCreated(list);
      SameMembers(gathered, list);
      assert Lists(list, templates);
      if fail { return false; }
      file := Some(list);
      ok := true;
    }

    method Create(opts: CreateOptions, freshId: TemplateId, now: Time, fail: bool) returns (answer: Answer)
      requires Filed() && freshId !in templates
      modifies this
      ensures var r := CreateReply(old(View()), opts, freshId, now, fail && persistent);
              View() == r.mem && answer == r.answer && FileIs(old(file), r.wrote)
      ensures Filed()
      ensures if answer == Done && persistent then file.Some? && Lists(file.value, templates) else file == old(file)
    {
      var alias := if opts.alias == "" then opts.name else opts.alias;
      if alias != "" && alias in aliases { return AliasTaken; }
      templates := templates[freshId := NewTemplate(opts, freshId, now)];
      if alias != "" { aliases := aliases[alias := freshId]; }
      var ok := Flush(fail);
      if !ok {
        templates := templates - {freshId};
        if alias != "" { aliases := aliases - {alias}; }
        assert aliases == old(aliases);
        return FlushFailed;
      }
      answer := Done;
    }

    method Lookup(idOrAlias: string) returns (r: Option<Template>)
      ensures r == ResolveNameOrId(View(), idOrAlias)
    {
      if idOrAlias == "" { return None; }
      if idOrAlias in templates { return Some(templates[idOrAlias]); }
      if idOrAlias in aliases {
        var id := aliases[idOrAlias];
        if id in templates { return Some(templates[id]); }
      }
      r := None;
    }

    method SeedBuiltIn(o: SeedOptions, freshId: TemplateId, buildId: string, now: Time, fail: bool)
        returns (answer: Answer)
      requires Filed()
      modifies this
      ensures var r := SeedReply(old(View()), o, freshId, buildId, now, fail && persistent);
              View() == r.mem && answer == r.answer && FileIs(old(file), r.wrote)
      ensures Filed()
      ensures if answer == Done && persistent then file.Some? && Lists(file.value, templates) else file == old(file)
    {
      if o.alias in aliases {
        var id := aliases[o.alias];
        if id !in templates { return Crashed; }
        templates := templates[id := templates[id].(imageTag := o.imageTag, startCmd := o.startCmd,
            readyCmd := o.readyCmd)];
      } else {
        templates := templates[freshId := BuiltIn(o, freshId, buildId, now)];
        aliases := aliases[o.alias := freshId];
      }
      var ok := Flush(fail);
      answer := if ok then Done else FlushFailed;
    }

    method Delete(id: TemplateId, fail: bool) returns (answer: Answer)
      requires Filed()
      modifies this
      ensures var r := DeleteReply(old(View()), id, fail && persistent);
              View() == r.mem && answer == r.answer && FileIs(old(file), r.wrote)
      ensures Filed()
      ensures if answer == Done && persistent then file.Some? && Lists(file.value, templates) else file == old(file)
    {
      if id !in templates { return NotFound; }
      var t := templates[id];
      templates := templates - {id};
      if t.alias != "" && t.alias in aliases && aliases[t.alias] == id { aliases := aliases - {t.alias}; }
      var ok := Flush(fail);
      if !ok {
        templates := templates[id := t];
        if t.alias != "" { aliases := aliases[t.alias := id]; }
        return FlushFailed;
      }
      answer := Done;
    }

    method UpdateMeta(id: TemplateId, mutate: Template -> Template, fail: bool) returns (answer: Answer)
      requires Filed() && forall t :: mutate(t).id == t.id
      modifies this
      ensures var r := UpdateMetaReply(old(View()), id, mutate, fail && persistent);
              View() == r.mem && answer == r.answer && FileIs(old(file), r.wrote)
      ensures Filed()
      ensures if answer == Done && persistent then file.Some? && Lists(file.value, templates) else file == old(file)
    {
      if id !in templates { return NotFound; }
      var oldAlias := templates[id].alias;
      var t := mutate(templates[id]);
      templates := templates[id := t];
      if t.alias != oldAlias {
        if t.alias != "" {
          if t.alias in aliases && aliases[t.alias] != id {
            templates := templates[id := t.(alias := oldAlias)];
            return AliasTaken;
          }
          aliases := aliases[t.alias := id];
        }
        if oldAlias != "" { aliases := aliases - {oldAlias}; }
      }
      var ok := Flush(fail);
      answer := if ok then Done else FlushFailed;
    }

    method AppendBuild(id: TemplateId, build: BuildRecord, fail: bool) returns (answer: Answer)
      requires Filed()
      modifies this
      ensures var r := AppendBuildReply(old(View()), id, build, fail && persistent);
              View() == r.mem && answer == r.answer && FileIs(old(file), r.wrote)
      ensures Filed()
      ensures if answer == Done && persistent then file.Some? && Lists(file.value, templates) else file == old(file)
    {
      if id !in templates { return NotFound; }
      var t := templates[id];
      templates := templates[id := t.(builds := t.builds + [build])];
      var ok := Flush(fail);
      if !ok {
        var now := templates[id];
        templates := templates[id := now.(builds := now.builds[..|now.builds| - 1])];
        assert templates == old(templates);
        return FlushFailed;
      }
      answer := Done;
    }

    method UpdateBuild(id: TemplateId, buildId: string, change: BuildRecord -> BuildRecord, fail: bool)
        returns (answer: Answer)
      requires Filed()
      modifies this
      ensures var r := UpdateBuildReply(old(View()), id, buildId, change, fail && persistent);
              View() == r.mem && answer == r.answer && FileIs(old(file), r.wrote)
      ensures Filed()
      ensures if answer == Done && persistent then file.Some? && Lists(file.value, templates) else file == old(file)
    {
      if id !in templates { return NotFound; }
      var t := templates[id];
      for i := 0 to |t.builds|
        invariant forall k | 0 <= k < i :: t.builds[k].id != buildId
      {
        if t.builds[i].id == buildId {
          templates := templates[id := t.(builds := t.builds[i := change(t.builds[i])])];
          var ok := Flush(fail);
          return if ok then Done else FlushFailed;
        }
      }
      answer := NotFound;
    }
  }

  lemma SameMembers(a: seq<Template>, b: seq<Template>)
    requires multiset(a) == multiset(b)
    ensures forall t :: t in a <==> t in b
  {
    assert forall t :: t in a <==> t in multiset(a);
    assert forall t :: t in b <==> t in multiset(b);
  }

  lemma InsertKeepsOrder(r: seq<Template>, k: nat, t: Template)
    requires InOrder(r) && k <= |r|
    requires (forall i | 0 <= i < k :: r[i].createdAt <= t.createdAt) && (k < |r| ==> t.createdAt < r[k].createdAt)
    ensures InOrder(r[..k] + [t] + r[k..])
  {
  }

  lemma InsertAddsOne(r: seq<Template>, k: nat, t: Template)
    requires k <= |r|
    ensures multiset(r[..k] + [t] + r[k..]) == multiset(r) + multiset{t}
  {
    assert r == r[..k] + r[k..];
  }

  method InsertByCreated(list: seq<Template>, t: Template) returns (r: seq<Template>)
    requires InOrder(list)
    ensures InOrder(r) && multiset(r) == multiset(list) + multiset{t}
  {
    var k := 0;
    while k < |list| && list[k].createdAt <= t.createdAt
      invariant 0 <= k <= |list|
      invariant forall i | 0 <= i < k :: list[i].createdAt <= t.createdAt
    {
      k := k + 1;
    }
    InsertKeepsOrder(list, k, t);
    InsertAddsOne(list, k, t);
    r := list[..k] + [t] + list[k..];
  }

  method SortByCreated(list: seq<Template>) returns (r: seq<Template>)
    ensures InOrder(r) && multiset(r) == multiset(list)
    ensures forall i, j | 0 <= i < j < |r| :: r[i].createdAt <= r[j].createdAt
  {
    r := [];
    for n := 0 to |list|
      invariant InOrder(r) && multiset(r) == multiset(list[..n])
    {
      assert list[..n + 1] == list[..n] + [list[n]];
      r := InsertByCreated(r, list[n]);
    }
    assert list[..|list|] == list;
  }
}
