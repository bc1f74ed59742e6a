/** The merged model directory served at /v1/models (internal/relay/registry.go), and its agreement
    with the scheduler. */
module Directory {
  import opened Nodes
  import opened Order
  import opened Scheduler

  datatype DirectoryEntry = DirectoryEntry(id: string, nodes: seq<string>, capabilities: seq<string>)

  ghost predicate NoDuplicates(s: seq<string>) {
    forall i, j | 0 <= i < j < |s| :: s[i] != s[j]
  }

  /** Node o lists model among those it serves. */
  predicate Lists(v: NodeView, model: string) {
    Serving(v) && model in v.models
  }

  ghost predicate Provides(nodes: map<string, NodeView>, model: string, o: string, capability: string) {
    o in nodes && Lists(nodes[o], model) && capability in nodes[o].models[model].capabilities
  }

  /** The entry names exactly the given nodes, and has their capabilities, each once. */
  ghost predicate EntryFor(nodes: map<string, NodeView>, among: set<string>, e: DirectoryEntry) {
    && NoDuplicates(e.nodes) && NoDuplicates(e.capabilities)
    && (forall o :: o in e.nodes <==> o in among && o in nodes && Lists(nodes[o], e.id))
    && (forall c :: c in e.capabilities <==> exists o :: o in among && Provides(nodes, e.id, o, c))
  }

  ghost predicate DirectoryCorrect(nodes: map<string, NodeView>, dir: seq<DirectoryEntry>) {
    && (forall i, j | 0 <= i < j < |dir| :: Less(dir[i].id, dir[j].id))
    && (forall i | 0 <= i < |dir| :: dir[i].nodes != [] && EntryFor(nodes, nodes.Keys, dir[i]))
    && (forall o, model | o in nodes && Lists(nodes[o], model) ::
          exists i :: 0 <= i < |dir| && dir[i].id == model)
  }

  /** Append the capabilities not yet present. */
  method MergeCapabilities(have: seq<string>, more: seq<string>) returns (all: seq<string>)
    requires NoDuplicates(have)
    ensures NoDuplicates(all)
    ensures forall c :: c in all <==> c in have || c in more
  {
    all := have;
    for i := 0 to |more|
      invariant NoDuplicates(all)
      invariant forall c :: c in all <==> c in have || c in more[..i]
    {
      if more[i] !in all {
        all := all + [more[i]];
      }
    }
  }

  /** merged holds, for the nodes already visited, one entry per listed model. */
  ghost predicate Merged(nodes: map<string, NodeView>, visited: set<string>, merged: map<string, DirectoryEntry>) {
    && (forall model | model in merged :: merged[model].id == model && merged[model].nodes != []
                                          && EntryFor(nodes, visited, merged[model]))
    && (forall o, model | o in visited && o in nodes && Lists(nodes[o], model) :: model in merged)
  }

  /** The entry after node o, which lists the model, joins. */
  method JoinEntry(ghost nodes: map<string, NodeView>, ghost visited: set<string>, entry: DirectoryEntry,
                   o: string, capabilities: seq<string>)
    returns (e: DirectoryEntry)
    requires EntryFor(nodes, visited, entry) && o !in visited
    requires o in nodes && Lists(nodes[o], entry.id) && nodes[o].models[entry.id].capabilities == capabilities
    ensures e.id == entry.id && e.nodes != [] && EntryFor(nodes, visited + {o}, e)
  {
    var caps := MergeCapabilities(entry.capabilities, capabilities);
    e := DirectoryEntry(entry.id, entry.nodes + [o], caps);
    forall c
      ensures c in caps <==> exists p :: p in visited + {o} && Provides(nodes, e.id, p, c)
    {
      if c in capabilities {
        assert Provides(nodes, e.id, o, c);
      }
      if c in entry.capabilities {
        var p :| p in visited && Provides(nodes, e.id, p, c);
        assert p in visited + {o};
      }
    }
  }

  /** Adding a node that does not list the entry's model changes nothing. */
  lemma EntrySkips(nodes: map<string, NodeView>, visited: set<string>, e: DirectoryEntry, o: string)
    requires EntryFor(nodes, visited, e) && !(o in nodes && Lists(nodes[o], e.id))
    ensures EntryFor(nodes, visited + {o}, e)
  {
    forall c
      ensures c in e.capabilities <==> exists p :: p in visited + {o} && Provides(nodes, e.id, p, c)
    {
      if c in e.capabilities {
        var p :| p in visited && Provides(nodes, e.id, p, c);
        assert p in visited + {o};
      }
    }
  }

  lemma EmptyEntry(nodes: map<string, NodeView>, visited: set<string>, model: string)
    requires forall o | o in visited && o in nodes :: !Lists(nodes[o], model)
    ensures EntryFor(nodes, visited, DirectoryEntry(model, [], []))
  {
  }

  /** Adding a node that serves nothing changes nothing. */
  lemma NodeSkips(nodes: map<string, NodeView>, visited: set<string>, merged: map<string, DirectoryEntry>, o: string)
    requires Merged(nodes, visited, merged) && o in nodes && !Serving(nodes[o])
    ensures Merged(nodes, visited + {o}, merged)
  {
    hide EntryFor;
    forall model | model in merged
      ensures EntryFor(nodes, visited + {o}, merged[model])
    {
      EntrySkips(nodes, visited, merged[model], o);
    }
  }

  /** The merged entries once the models in done have been joined for node o. */
  ghost predicate Joining(nodes: map<string, NodeView>, visited: set<string>, o: string, done: set<string>,
                          before: map<string, DirectoryEntry>, now: map<string, DirectoryEntry>)
  {
    && (forall model | model in done ::
          model in now && now[model].id == model && now[model].nodes != []
          && EntryFor(nodes, visited + {o}, now[model]))
    && (forall model | model !in done ::
          (model in now <==> model in before) && (model in now ==> now[model] == before[model]))
  }

  /** One more model joined. */
  lemma OneJoined(nodes: map<string, NodeView>, visited: set<string>, o: string, done: set<string>,
                  before: map<string, DirectoryEntry>, now: map<string, DirectoryEntry>,
                  model: string, e: DirectoryEntry)
    requires Joining(nodes, visited, o, done, before, now)
    requires e.id == model && e.nodes != [] && EntryFor(nodes, visited + {o}, e)
    ensures Joining(nodes, visited, o, done + {model}, before, now[model := e])
  {
    hide EntryFor;
  }

  lemma AllJoined(nodes: map<string, NodeView>, visited: set<string>, o: string,
                  before: map<string, DirectoryEntry>, now: map<string, DirectoryEntry>)
    requires o in nodes && Merged(nodes, visited, before)
    requires Joining(nodes, visited, o, nodes[o].models.Keys, before, now)
    ensures Merged(nodes, visited + {o}, now)
  {
    hide EntryFor;
    forall model | model in now
      ensures now[model].id == model && now[model].nodes != [] && EntryFor(nodes, visited + {o}, now[model])
    {
      if model !in nodes[o].models {
        EntrySkips(nodes, visited, now[model], o);
      }
    }
  }

  /** All models of one node, in whatever order they come. */
  method MergeNode(ghost nodes: map<string, NodeView>, ghost visited: set<string>,
                   merged: map<string, DirectoryEntry>, o: string, models: map<string, ModelCap>)
    returns (result: map<string, DirectoryEntry>)
    requires o in nodes && o !in visited && Serving(nodes[o]) && models == nodes[o].models
    requires Merged(nodes, visited, merged)
    ensures Merged(nodes, visited + {o}, result)
  {
    hide EntryFor;
    result := merged;
    var rest := models.Keys;
    while rest != {}
      invariant rest <= models.Keys
      invariant Joining(nodes, visited, o, models.Keys - rest, merged, result)
      decreases |rest|
    {
      var model :| model in rest;
      var e := if model in result then result[model] else DirectoryEntry(model, [], []);
      if model !in result {
        EmptyEntry(nodes, visited, model);
      }
      var joined := JoinEntry(nodes, visited, e, o, models[model].capabilities);
      OneJoined(nodes, visited, o, models.Keys - rest, merged, result, model, joined);
      assert models.Keys - (rest - {model}) == (models.Keys - rest) + {model};
      result := result[model := joined];
      rest := rest - {model};
    }
    assert models.Keys - rest == models.Keys;
    AllJoined(nodes, visited, o, merged, result);
  }

  /** sort.Strings over the model ids, then one entry per id. */
  method SortEntries(ghost nodes: map<string, NodeView>, merged: map<string, DirectoryEntry>)
    returns (dir: seq<DirectoryEntry>)
    requires Merged(nodes, nodes.Keys, merged)
    ensures DirectoryCorrect(nodes, dir)
  {
    hide EntryFor, Less;
    var ids := SortSet(merged.Keys);
    dir := [];
    for i := 0 to |ids|
      invariant |dir| == i
      invariant forall k | 0 <= k < i :: dir[k] == merged[ids[k]] && dir[k].id == ids[k]
    {
      dir := dir + [merged[ids[i]]];
    }
    forall o, model | o in nodes && Lists(nodes[o], model)
      ensures exists i :: 0 <= i < |dir| && dir[i].id == model
    {
      assert model in ids;
      var i :| 0 <= i < |ids| && ids[i] == model;
      assert dir[i].id == model;
    }
  }

  lemma NothingMerged(nodes: map<string, NodeView>)
    ensures Merged(nodes, {}, map[])
  {
  }

  /** One node of the registry; one that does not serve adds nothing. */
  method MergeIfServing(ghost nodes: map<string, NodeView>, ghost visited: set<string>,
                        merged: map<string, DirectoryEntry>, n: Node)
    returns (result: map<string, DirectoryEntry>)
    requires n.id in nodes && n.id !in visited && nodes[n.id] == n.View()
    requires Merged(nodes, visited, merged)
    ensures Merged(nodes, visited + {n.id}, result)
  {
    hide Merged;
    if n.state == Online || n.state == Degraded {
      result := MergeNode(nodes, visited, merged, n.id, n.models);
    } else {
      NodeSkips(nodes, visited, merged, n.id);
      result := merged;
    }
  }

  method ModelDirectory(reg: Registry) returns (dir: seq<DirectoryEntry>)
    requires reg.Valid()
    ensures DirectoryCorrect(reg.View(), dir)
  {
    ghost var view := reg.View();
    var keys := reg.nodes.Keys;
    assert view.Keys == keys;
    NothingMerged(view);
    hide Merged, DirectoryCorrect;
    var merged: map<string, DirectoryEntry> := map[];
    var rest := keys;
    while rest != {}
      invariant rest <= keys
      invariant Merged(view, keys - rest, merged)
      decreases |rest|
    {
      var o :| o in rest;
      merged := MergeIfServing(view, keys - rest, merged, reg.nodes[o]);
      assert keys - (rest - {o}) == (keys - rest) + {o};
      rest := rest - {o};
    }
    assert keys - rest == keys;
    dir := SortEntries(view, merged);
  }

  // -------------------------------------------------------------- properties

  /** The directory in plain terms: ids strictly ascending; for each id exactly the Online or Degraded nodes
      that list the model, at least one, and exactly their capabilities, nothing twice; no model missing. */
  lemma DirectoryInPlainTerms(nodes: map<string, NodeView>, dir: seq<DirectoryEntry>)
    requires DirectoryCorrect(nodes, dir)
    ensures forall i, j | 0 <= i < j < |dir| :: Less(dir[i].id, dir[j].id)
    ensures forall i | 0 <= i < |dir| ::
              dir[i].nodes != [] && NoDuplicates(dir[i].nodes) && NoDuplicates(dir[i].capabilities)
    ensures forall i, o | 0 <= i < |dir| :: o in dir[i].nodes <==>
              o in nodes && (nodes[o].state == Online || nodes[o].state == Degraded) && dir[i].id in nodes[o].models
    ensures forall i, c | 0 <= i < |dir| :: c in dir[i].capabilities <==>
              exists o :: o in dir[i].nodes && c in nodes[o].models[dir[i].id].capabilities
    ensures forall o, model | o in nodes && (nodes[o].state == Online || nodes[o].state == Degraded)
                              && model in nodes[o].models :: exists i :: 0 <= i < |dir| && dir[i].id == model
  {
    assert forall i | 0 <= i < |dir| :: EntryFor(nodes, nodes.Keys, dir[i]);
    forall i, c | 0 <= i < |dir|
      ensures c in dir[i].capabilities <==>
              exists o :: o in dir[i].nodes && c in nodes[o].models[dir[i].id].capabilities
    {
      if o :| o in dir[i].nodes && c in nodes[o].models[dir[i].id].capabilities {
        assert o in nodes.Keys && Provides(nodes, dir[i].id, o, c);
      }
    }
    assert forall o, model | o in nodes && (nodes[o].state == Online || nodes[o].state == Degraded)
                             && model in nodes[o].models :: Lists(nodes[o], model);
  }

  /** A node the scheduler picks is listed under the model asked for. */
  lemma SelectedIsListed(nodes: map<string, NodeView>, dir: seq<DirectoryEntry>,
                         model: string, capability: string, id: string)
    requires DirectoryCorrect(nodes, dir)
    requires SelectionCorrect(nodes, model, capability, Chosen(id))
    ensures exists i :: 0 <= i < |dir| && dir[i].id == model && id in dir[i].nodes
  {
    assert Lists(nodes[id], model);
    var i :| 0 <= i < |dir| && dir[i].id == model;
    assert EntryFor(nodes, nodes.Keys, dir[i]);
  }

  /** A model with a listed node that has room is one the scheduler can serve, and a model the
      directory does not list is one it cannot. */
  lemma ListedIsSelectable(nodes: map<string, NodeView>, dir: seq<DirectoryEntry>, model: string, r: Selection)
    requires DirectoryCorrect(nodes, dir)
    requires SelectionCorrect(nodes, model, "", r)
    ensures r.Chosen? <==>
      exists i, o :: 0 <= i < |dir| && dir[i].id == model && o in dir[i].nodes && HasRoom(nodes[o])
  {
    if r.Chosen? {
      SelectedIsListed(nodes, dir, model, "", r.id);
      var i :| 0 <= i < |dir| && dir[i].id == model && r.id in dir[i].nodes;
      assert HasRoom(nodes[r.id]);
    }
    if i, o :| 0 <= i < |dir| && dir[i].id == model && o in dir[i].nodes && HasRoom(nodes[o]) {
      assert EntryFor(nodes, nodes.Keys, dir[i]);
      assert Candidate(nodes[o], model, "");
    }
  }
}
