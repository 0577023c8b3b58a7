/**
 `_resolve_agent_inheritance` and the registration loop over the mutable dicts themselves: what they
 compute, and that nothing they were given is written or shared.
*/
module AgentResolution {
  import opened Wrappers
  import opened DeepMerge
  import opened Inheritance
  import opened Registration
  import opened ConfigHeap

  /** `d` is a tree that holds `view`. */
  ghost predicate Holds(d: PyDict, view: Spec)
    reads d, d.Repr
  {
    d.Valid() && d.View() == view
  }

  ghost predicate HoldsAll(dicts: map<string, PyDict>, views: Specs)
    reads dicts.Values, set n, o | n in dicts && o in dicts[n].Repr :: o
  {
    dicts.Keys == views.Keys && forall n :: n in dicts ==> Holds(dicts[n], views[n])
  }

  datatype ResolveError = Cycle(chain: seq<string>) | UnknownParent(name: string, parent: string)

  /** `chain` runs up from `name` and returns to a name it has passed. */
  predicate IsCycle(specs: Specs, name: string, chain: seq<string>) {
    && Linked(specs, chain) && name in chain
    && exists i :: 0 <= i < |chain| - 1 && chain[i] == chain[|chain| - 1]
  }

  /** The parent links lead from `name` up to `n`. */
  ghost predicate Reaches(specs: Specs, name: string, n: string) {
    exists chain :: Linked(specs, chain) && |chain| > 0 && chain[0] == name && chain[|chain| - 1] == n
  }

  lemma ReachesOneMore(specs: Specs, name: string, parent: string, n: string)
    requires name in specs && ParentOf(specs[name]) == Some(parent) && Reaches(specs, parent, n)
    ensures Reaches(specs, name, n)
  {
    var chain :| Linked(specs, chain) && |chain| > 0 && chain[0] == parent && chain[|chain| - 1] == n;
    var longer := [name] + chain;
    assert Linked(specs, longer) && longer[0] == name && longer[|longer| - 1] == n;
  }

  /** The error names what is wrong with the parent chain of `name`. */
  ghost predicate Explains(specs: Specs, factories: Specs, name: string, e: ResolveError) {
    && !ChainEnds(specs, factories, name)
    && match e
       case Cycle(chain) => IsCycle(specs, name, chain)
       case UnknownParent(n, p) =>
         n in specs && ParentOf(specs[n]) == Some(p) && p !in specs && p !in factories
         && Reaches(specs, name, n)
  }

  lemma StackIsCycle(specs: Specs, factories: Specs, stack: seq<string>, name: string)
    requires Linked(specs, stack + [name]) && name in stack
    ensures Explains(specs, factories, name, Cycle(stack + [name]))
  {
    var chain := stack + [name];
    var i :| 0 <= i < |stack| && stack[i] == name;
    assert chain[i] == chain[|chain| - 1] == name;
    CycleNeverEnds(specs, factories, chain, i);
  }

  /** What is wrong with the parent's chain is wrong with the child's. */
  lemma ExplainsAbove(specs: Specs, factories: Specs, stack: seq<string>, name: string, parent: string, e: ResolveError)
    requires name in specs && ParentOf(specs[name]) == Some(parent) && parent in specs
    requires Explains(specs, factories, parent, e) && (e.Cycle? ==> stack + [name] + [parent] <= e.chain)
    ensures Explains(specs, factories, name, e) && (e.Cycle? ==> stack + [name] <= e.chain)
  {
    hide Resolved;
    ResolvedStep(specs, factories, name);
    match e
    case Cycle(chain) => assert chain[|stack|] == (stack + [name] + [parent])[|stack|] == name;
    case UnknownParent(n, p) => ReachesOneMore(specs, name, parent, n);
  }

  function SetOf(stack: seq<string>): set<string> { set n | n in stack }

  class AgentResolver {
    const specs: map<string, PyDict>
    const factories: map<string, PyDict>
    ghost const specViews: Specs
    ghost const factoryViews: Specs
    var resolved: map<string, PyDict>

    constructor (specs: map<string, PyDict>, factories: map<string, PyDict>, ghost specViews: Specs, ghost factoryViews: Specs)
      requires HoldsAll(specs, specViews) && HoldsAll(factories, factoryViews)
      ensures this.specs == specs && this.factories == factories && resolved == map[]
      ensures this.specViews == specViews && this.factoryViews == factoryViews
      ensures Valid()
    {
      this.specs, this.factories, resolved := specs, factories, map[];
      this.specViews, this.factoryViews := specViews, factoryViews;
    }

    /** The inputs are untouched, and every memoised spec is the fold up its chain. */
    ghost predicate Valid()
      reads this, specs.Values, set n, o | n in specs && o in specs[n].Repr :: o
      reads factories.Values, set n, o | n in factories && o in factories[n].Repr :: o
      reads resolved.Values, set n, o | n in resolved && o in resolved[n].Repr :: o
    {
      && HoldsAll(specs, specViews) && HoldsAll(factories, factoryViews)
      && forall n :: n in resolved ==> n in specs && Right(n, resolved[n])
    }

    ghost predicate Right(name: string, spec: PyDict)
      reads spec, spec.Repr
    {
      ChainEnds(specViews, factoryViews, name) && Holds(spec, Resolved(specViews, factoryViews, name))
    }

    /** `spec.pop("_parent", None)` of a copy of the agent's table. */
    method Table(name: string) returns (spec: PyDict, parent: Option<string>)
      requires Valid() && name in specs
      ensures Valid() && fresh(spec) && spec.Repr == {spec} + (specs[name].Repr - {specs[name]})
      ensures Holds(spec, Own(specViews[name])) && parent == ParentOf(specViews[name])
    {
      hide PyDict.View;
      hide Resolved;
      var table := specs[name];
      assert Holds(table, specViews[name]);
      parent := None;
      if PARENT in table.entries {
        ViewAt(table, PARENT);
        if table.entries[PARENT].Atom? && table.entries[PARENT].value.Leaf? {
          parent := Some(table.entries[PARENT].value.text);
        }
      }
      spec := new PyDict.Shallow(table, PARENT);
    }
  
    /** A deep copy of the factory's own terms, `{}` when there is no such factory. */
    method FactoryTerms(parent: string) returns (d: PyDict)
      requires Valid()
      ensures fresh(d.Repr) && Holds(d, Lookup(factoryViews, parent))
    {
      if parent in factories {
        assert Holds(factories[parent], factoryViews[parent]);
        d := DeepCopy(factories[parent]);
      } else {
        d := new PyDict();
      }
    }

    /** The resolved parent, copied, goes over the factory terms; the identity is popped; the child goes on top. */
    method Extend(base: PyDict, above: Option<PyDict>, spec: PyDict)
      requires base.Valid() && spec.Valid() && base.Repr !! spec.Repr
      requires above.Some? ==> above.value.Valid() && above.value.Repr !! base.Repr
      modifies base.Repr
      ensures base.Valid() && fresh(base.Repr - old(base.Repr) - spec.Repr)
      ensures var parent := if above.Some? then old(above.value.View()) else map[];
              base.View() == MergeSpec(Inherited(old(base.View()), parent), old(spec.View()))
    {
      hide PyDict.View;
      hide Merge;
      if above.Some? {
        var copy := DeepCopy(above.value);
        DeepMergeInto(base, copy);
      } else {
        MergeEmpty(base.View());
      }
      base.Pop(AGENT_NAME);
      DeepMergeInto(base, spec);
    }
  
    /**
     What a child inherits, with the child on top. The factory terms are copied here, after the parent is
     resolved: resolving writes the memo only, so the copy is the one taken before.
    */
    method Child(parent: string, above: Option<PyDict>, spec: PyDict, ghost inherited: Spec, ghost own: Spec) returns (base: PyDict)
      requires Valid() && Holds(spec, own)
      requires if above.Some? then Holds(above.value, inherited) else inherited == map[]
      ensures fresh(base.Repr - spec.Repr)
      ensures Holds(base, MergeSpec(Inherited(Lookup(factoryViews, parent), inherited), own))
    {
      hide PyDict.View;
      hide PyDict.Valid;
      hide AgentResolver.Valid;
      hide MergeSpec;
      hide Inherited;
      hide Lookup;
      base := FactoryTerms(parent);
      assert Holds(spec, own) && (above.Some? ==> Holds(above.value, inherited));
      Extend(base, above, spec);
    }

    /** What was memoised stays. */
    predicate Grown(before: map<string, PyDict>)
      reads this
    {
      forall n :: n in before ==> n in resolved && resolved[n] == before[n]
    }

    /** The parent's resolved spec, if the parent has a table. */
    method Above(name: string, parent: string, stack: seq<string>) returns (r: Result<Option<PyDict>, ResolveError>)
      requires Valid() && name in specs && Linked(specViews, stack + [name]) && name !in stack
      requires ParentOf(specViews[name]) == Some(parent) && (parent in specs || parent in factories)
      modifies this
      ensures Valid() && Grown(old(resolved))
      ensures r.Ok? ==> ChainEnds(specViews, factoryViews, name) && (parent in specs <==> r.value.Some?)
      ensures r.Ok? && r.value.Some? ==> parent in resolved && resolved[parent] == r.value.value && Right(parent, r.value.value)
      ensures r.Err? ==> Explains(specViews, factoryViews, name, r.error)
      ensures r.Err? && r.error.Cycle? ==> stack + [name] <= r.error.chain
      decreases specs.Keys - SetOf(stack), 0
    {
      hide PyDict.View;
      hide Resolved;
      hide IsCycle;
      ResolvedStep(specViews, factoryViews, name);
      if parent !in specs { return Ok(None); }
      assert SetOf(stack + [name]) == SetOf(stack) + {name};
      var found := Resolve(parent, stack + [name]);
      match found
      case Ok(spec) => r := Ok(Some(spec));
      case Err(e) =>
        ExplainsAbove(specViews, factoryViews, stack, name, parent, e);
        r := Err(e);
    }

    lemma SameNames()
      requires Valid()
      ensures specs.Keys == specViews.Keys && factories.Keys == factoryViews.Keys
    {
    }

    lemma MemoIsRight(name: string)
      requires Valid() && name in resolved
      ensures Right(name, resolved[name])
    {
    }

    lemma AllRight()
      requires Valid() && specs.Keys <= resolved.Keys
      ensures AllEnd(specViews, factoryViews) && HoldsAll(resolved, AllResolved(specViews, factoryViews))
    {
      hide PyDict.View;
      hide Resolved;
    }

    method Memoise(name: string, spec: PyDict)
      requires Valid() && name in specs && Right(name, spec)
      modifies this
      ensures Valid() && resolved == old(resolved)[name := spec] && Right(name, spec)
    {
      hide PyDict.View;
      hide Resolved;
      resolved := resolved[name := spec];
    }

    /** `name`'s spec when it is not in the memo yet; it shares nested dicts with its own table only. */
    method Compute(name: string, stack: seq<string>) returns (r: Result<PyDict, ResolveError>)
      requires Valid() && name in specs && Linked(specViews, stack + [name]) && name !in stack
      modifies this
      ensures Valid() && Grown(old(resolved))
      ensures r.Ok? ==> Right(name, r.value) && fresh(r.value.Repr - specs[name].Repr)
      ensures r.Err? ==> Explains(specViews, factoryViews, name, r.error)
      ensures r.Err? && r.error.Cycle? ==> stack + [name] <= r.error.chain
      decreases specs.Keys - SetOf(stack), 1
    {
      hide PyDict.View;
      hide Resolved;
      hide IsCycle;
      hide AgentResolver.Valid;
      SameNames();
      ResolvedStep(specViews, factoryViews, name);
      var spec, parent := Table(name);
      if parent.None? { return Ok(spec); }
      if parent.value !in specs && parent.value !in factories {
        assert Linked(specViews, [name]);
        return Err(ResolveError.UnknownParent(name, parent.value));
      }
      var above := Above(name, parent.value, stack);
      if above.Err? { return Err(above.error); }
      ghost var inherited := if parent.value in specs then Resolved(specViews, factoryViews, parent.value) else map[];
      spec := Child(parent.value, above.value, spec, inherited, Own(specViews[name]));
      r := Ok(spec);
    }

    /** `resolve(name, stack)`: writes the memo and nothing else. */
    method Resolve(name: string, stack: seq<string>) returns (r: Result<PyDict, ResolveError>)
      requires Valid() && name in specs && Linked(specViews, stack + [name])
      modifies this
      ensures Valid() && Grown(old(resolved))
      ensures r.Ok? ==> name in resolved && resolved[name] == r.value && Right(name, r.value)
      ensures r.Err? ==> Explains(specViews, factoryViews, name, r.error)
      ensures r.Err? && r.error.Cycle? ==> stack + [name] <= r.error.chain
      decreases specs.Keys - SetOf(stack), 2
    {
      hide PyDict.View;
      hide Resolved;
      hide IsCycle;
      hide AgentResolver.Valid;
      if name in resolved { MemoIsRight(name); return Ok(resolved[name]); }
      if name in stack {
        StackIsCycle(specViews, factoryViews, stack, name);
        return Err(Cycle(stack + [name]));
      }
      r := Compute(name, stack);
      if r.Ok? { Memoise(name, r.value); }
    }
  }

  ghost predicate AllEnd(specs: Specs, factories: Specs) {
    forall n :: n in specs ==> ChainEnds(specs, factories, n)
  }

  lemma ExplainedMeansNotAll(specs: Specs, factories: Specs, name: string, e: ResolveError)
    requires name in specs && Explains(specs, factories, name, e)
    ensures !AllEnd(specs, factories)
  {
  }

  ghost function AllResolved(specs: Specs, factories: Specs): Specs
    requires AllEnd(specs, factories)
  {
    map n | n in specs :: Resolved(specs, factories, n)
  }

  /**
   `_resolve_agent_inheritance`: it ends on every input, fails exactly when some chain does not end and says
   why, and otherwise every name gets its fold, in whatever order they are visited. Nothing is written.
  */
  method ResolveAgentInheritance(specs: map<string, PyDict>, factories: map<string, PyDict>,
                                 ghost specViews: Specs, ghost factoryViews: Specs)
    returns (r: Result<map<string, PyDict>, ResolveError>)
    requires HoldsAll(specs, specViews) && HoldsAll(factories, factoryViews)
    ensures r.Ok? <==> AllEnd(specViews, factoryViews)
    ensures r.Ok? ==> HoldsAll(r.value, AllResolved(specViews, factoryViews))
    ensures r.Err? ==> exists n :: n in specs && Explains(specViews, factoryViews, n, r.error)
    ensures HoldsAll(specs, specViews) && HoldsAll(factories, factoryViews)
  {
    hide PyDict.View;
    hide Resolved;
    hide IsCycle;
    hide HoldsAll;
    hide AllResolved;
    hide AgentResolver.Valid;
    hide AgentResolver.Right;
    hide Explains;
    hide AllEnd;
    var resolver := new AgentResolver(specs, factories, specViews, factoryViews);
    var names := specs.Keys;
    while names != {}
      invariant names <= specs.Keys && resolver.specs == specs && resolver.Valid()
      invariant resolver.factories == factories && resolver.specViews == specViews && resolver.factoryViews == factoryViews
      invariant specs.Keys - names <= resolver.resolved.Keys
      decreases names
    {
      var name :| name in names;
      resolver.SameNames();
      assert [] + [name] == [name] && Linked(specViews, [name]);
      var found := resolver.Resolve(name, []);
      if found.Err? {
        ExplainedMeansNotAll(specViews, factoryViews, name, found.error);
        return Err(found.error);
      }
      names := names - {name};
    }
    resolver.AllRight();
    r := Ok(resolver.resolved);
  }

  // ------------------------------------------------------------------ registration

  method NoPlugins() returns (d: PyDict)
    ensures fresh(d.Repr) && Holds(d, NO_PLUGINS.entries)
  {
    d := new PyDict();
    Replace(d, "enabled", Atom(ListLeaf([])));
    Replace(d, "disabled", Atom(ListLeaf([])));
  }

  method FillPlugins(kwargs: PyDict, ghost view: Spec)
    requires Holds(kwargs, view)
    modifies kwargs
    ensures Holds(kwargs, view["plugins" := NO_PLUGINS]) && fresh(kwargs.Repr - old(kwargs.Repr))
  {
    hide PyDict.View;
    var none := NoPlugins();
    assert ItemView(Nested(none)) == NO_PLUGINS;
    Replace(kwargs, "plugins", Nested(none));
  }

  function ItemOf(d: PyDict, key: string): Option<Item>
    reads d
  {
    if key in d.entries then Some(d.entries[key]) else None
  }

  /** What is registered, once the absent `tools` and `plugins` are filled in. */
  lemma RegisteredIs(name: string, view: Spec, s: Spec)
    requires Registered(name, view).Ok?
    requires var d := Without(view, {"description"});
             var e := if Get(view, "tools").None? then d["tools" := ListLeaf([])] else d;
             s == if IsNone(Get(view, "plugins")) then e["plugins" := NO_PLUGINS] else e
    ensures Registered(name, view) == Ok(s["kind" := Leaf(name)])
  {
  }

  /** `AgentRegistry.register(name, **merged)`: the keyword dict is new, its nested dicts are the caller's. */
  method Register(name: string, merged: PyDict, ghost view: Spec) returns (r: Result<PyDict, RegisterError>)
    requires Holds(merged, view)
    ensures r.Ok? <==> Registered(name, view).Ok?
    ensures r.Ok? ==> Holds(r.value, Registered(name, view).value) && fresh(r.value.Repr - merged.Repr)
    ensures r.Err? ==> r.error == Registered(name, view).error
  {
    hide PyDict.View;
    var kwargs := new PyDict.Shallow(merged, "description");
    ghost var s := Without(view, {"description"});
    var tools, plugins := ItemOf(merged, "tools"), ItemOf(merged, "plugins");
    if tools.Some? { ViewAt(merged, "tools"); }
    if plugins.Some? { ViewAt(merged, "plugins"); }
    if tools.Some? && !(tools.value.Atom? && (tools.value.value.ListLeaf? || tools.value.value.NoneLeaf?)) {
      return Err(ToolsNotAList);
    }
    if plugins.Some? && plugins.value.Atom? && !plugins.value.value.NoneLeaf? { return Err(PluginsNotADict); }
    if tools.None? {
      Replace(kwargs, "tools", Atom(ListLeaf([])));
      s := s["tools" := ListLeaf([])];
    }
    if !(plugins.Some? && plugins.value.Nested?) {
      FillPlugins(kwargs, s);
      s := s["plugins" := NO_PLUGINS];
    }
    RegisteredIs(name, view, s);
    hide Registered;
    Replace(kwargs, "kind", Atom(Leaf(name)));
    r := Ok(kwargs);
  }

  /** The deep-copied terms of one agent, merged. */
  method MergedTerms(defaults: PyDict, factory: Option<PyDict>, config: Option<PyDict>, external: bool,
                     ghost defaultView: Spec, ghost factoryView: Spec, ghost configView: Spec)
    returns (merged: PyDict)
    requires Holds(defaults, defaultView)
    requires if factory.Some? then Holds(factory.value, factoryView) else factoryView == map[]
    requires if config.Some? then Holds(config.value, configView) else configView == map[]
    ensures fresh(merged.Repr) && Holds(merged, Merged(defaultView, factoryView, configView, external))
  {
    hide PyDict.View;
    hide Merge;
    if external { merged := new PyDict(); } else { merged := DeepCopy(defaults); }
    MergeCopy(merged, factory, factoryView);
    MergeCopy(merged, config, configView);
    PopDirectives(merged);
  }

  method PopDirectives(d: PyDict)
    requires d.Valid()
    modifies d
    ensures Holds(d, Without(old(d.View()), {"name", PARENT})) && d.Repr == old(d.Repr)
  {
    hide PyDict.View;
    ghost var whole := d.View();
    d.Pop("name");
    d.Pop(PARENT);
    assert Without(Without(whole, {"name"}), {PARENT}) == Without(whole, {"name", PARENT});
  }

  /** `_deep_merge(base, copy.deepcopy(term))`, with `{}` for a term that is not there. */
  method MergeCopy(base: PyDict, term: Option<PyDict>, ghost view: Spec)
    requires base.Valid() && (if term.Some? then Holds(term.value, view) else view == map[])
    modifies base.Repr
    ensures Holds(base, MergeSpec(old(base.View()), view)) && fresh(base.Repr - old(base.Repr))
  {
    hide PyDict.View;
    var copy: PyDict;
    if term.Some? { copy := DeepCopy(term.value); } else { copy := new PyDict(); }
    DeepMergeInto(base, copy);
  }

  /** What the registry should hold for one agent. */
  function Entry(name: string, defaults: Spec, factories: Specs, configs: Specs): Result<Spec, RegisterError> {
    var config := Lookup(configs, name);
    Registered(name, Merged(defaults, Lookup(factories, name), config, name in EXTERNAL_KINDS || RUNTIME in config))
  }

  /** An agent that runs on another runtime, by its name or by what its chain resolved to. */
  predicate ExternallyBacked(name: string, configs: Specs) { name in EXTERNAL_KINDS || RUNTIME in Lookup(configs, name) }

  /**
   What is registered at one setting: what its table resolved to, over its factory's, over the defaults, of which an externally
   backed agent sees nothing; and empty lists where nobody says anything about tools or plugins.
  */
  lemma EntryAt(name: string, defaults: Spec, factories: Specs, configs: Specs, key: string)
    requires Entry(name, defaults, factories, configs).Ok? && key !in {"name", PARENT, "description", "kind"}
    ensures var below := if ExternallyBacked(name, configs) then None else Get(defaults, key);
            var whole := Combine(Combine(below, Get(Lookup(factories, name), key)), Get(Lookup(configs, name), key));
            Get(Entry(name, defaults, factories, configs).value, key) ==
              if key == "tools" && whole.None? then Some(ListLeaf([]))
              else if key == "plugins" && IsNone(whole) then Some(NO_PLUGINS) else whole
  {
    var below: Spec := if ExternallyBacked(name, configs) then map[] else defaults;
    var factory, config := Lookup(factories, name), Lookup(configs, name);
    GetMerge(below, factory, key);
    GetMerge(MergeSpec(below, factory), config, key);
    hide MergeSpec;
    hide Combine;
    assert Merged(defaults, factory, config, ExternallyBacked(name, configs)) == Without(MergeSpec(MergeSpec(below, factory), config), {"name", PARENT});
  }

  /** It is refused exactly when what is said of tools is no list, or, that being in order, what is said of plugins no dict. */
  lemma EntryRefusedIff(name: string, defaults: Spec, factories: Specs, configs: Specs)
    ensures var below: Spec := if ExternallyBacked(name, configs) then map[] else defaults;
            var factory, config := Lookup(factories, name), Lookup(configs, name);
            var tools := Combine(Combine(Get(below, "tools"), Get(factory, "tools")), Get(config, "tools"));
            var plugins := Combine(Combine(Get(below, "plugins"), Get(factory, "plugins")), Get(config, "plugins"));
            var listed, bound := IsNone(tools) || tools.value.ListLeaf?, IsNone(plugins) || plugins.value.Dict?;
            && (Entry(name, defaults, factories, configs) == Err(ToolsNotAList) <==> !listed)
            && (Entry(name, defaults, factories, configs) == Err(PluginsNotADict) <==> listed && !bound)
  {
    var below: Spec := if ExternallyBacked(name, configs) then map[] else defaults;
    var factory, config := Lookup(factories, name), Lookup(configs, name);
    var all := MergeSpec(MergeSpec(below, factory), config);
    GetMerge(below, factory, "tools");
    GetMerge(MergeSpec(below, factory), config, "tools");
    GetMerge(below, factory, "plugins");
    GetMerge(MergeSpec(below, factory), config, "plugins");
    hide MergeSpec;
    hide Combine;
    assert Merged(defaults, factory, config, ExternallyBacked(name, configs)) == Without(all, {"name", PARENT});
    assert Get(Without(all, {"name", PARENT}), "tools") == Get(all, "tools") && Get(Without(all, {"name", PARENT}), "plugins") == Get(all, "plugins");
  }

  /** The identity it is registered under is its own, and no directive is left in it. */
  lemma EntryIdentity(name: string, defaults: Spec, factories: Specs, configs: Specs)
    requires Entry(name, defaults, factories, configs).Ok?
    ensures var e := Entry(name, defaults, factories, configs).value;
            Get(e, "kind") == Some(Leaf(name)) && "name" !in e && PARENT !in e && "description" !in e
  {
    hide MergeSpec;
  }

  /** An externally backed agent starts from nothing: it is the same whatever the defaults are, and all it is told was meant for it. */
  lemma ExternalStartsFromNothing(name: string, defaults: Spec, others: Spec, factories: Specs, configs: Specs)
    requires ExternallyBacked(name, configs)
    ensures Entry(name, defaults, factories, configs) == Entry(name, others, factories, configs)
    ensures Entry(name, defaults, factories, configs).Ok? ==>
              forall key :: key in Entry(name, defaults, factories, configs).value && key !in {"tools", "plugins", "kind"} ==>
                key in Lookup(factories, name) || key in Lookup(configs, name)
  {
    if Entry(name, defaults, factories, configs).Ok? {
      EntryIdentity(name, defaults, factories, configs);
      forall key | key in Entry(name, defaults, factories, configs).value && key !in {"tools", "plugins", "kind"}
        ensures key in Lookup(factories, name) || key in Lookup(configs, name)
      {
        EntryAt(name, defaults, factories, configs, key);
      }
    }
    hide MergeSpec;
    hide Registered;
  }

  /**
   What bootstrap registers for a table with a parent, when the child is no factory agent (a factory agent is
   registered, and `agent_cfg` may not give it a parent) and nothing external is in its lineage.
  */
  lemma ChildEntryIsByConfig(specs: Specs, factories: Specs, defaults: Spec, externals: Specs, child: string, parent: string)
    requires AllEnd(specs, factories + externals) && child in specs && ParentOf(specs[child]) == Some(parent)
    requires child !in factories && child !in EXTERNAL_KINDS && RUNTIME !in Resolved(specs, factories + externals, child)
    ensures Entry(child, defaults, factories, AllResolved(specs, factories + externals))
         == ByConfig(child, defaults, Lookup(factories + externals, parent),
                     if parent in specs then Resolved(specs, factories + externals, parent) else map[], Own(specs[child]))
  {
    ByConfigIsBootstrap(specs, factories + externals, defaults, child, parent);
    hide Resolved;
    hide Merged;
    hide Registered;
  }

  /** No two registered agents share a dict, at any depth. */
  ghost predicate NothingShared(registry: map<string, PyDict>)
    reads registry.Values
  {
    forall m, n :: m in registry && n in registry && m != n ==> registry[m].Repr !! registry[n].Repr
  }

  ghost predicate Filled(registry: map<string, PyDict>, names: set<string>, defaults: Spec, factories: Specs, configs: Specs)
    reads registry.Values, set n, o | n in registry && o in registry[n].Repr :: o
  {
    && registry.Keys == names && NothingShared(registry)
    && forall n :: n in names ==> Entry(n, defaults, factories, configs).Ok? && Holds(registry[n], Entry(n, defaults, factories, configs).value)
  }

  /** No setting of an externally backed agent but those registration fills in comes from anywhere but its factory or its chain. */
  ghost predicate ExternalsFromNothing(registry: map<string, PyDict>, factories: Specs, configs: Specs)
    reads registry.Values
  {
    forall n, key :: n in registry && ExternallyBacked(n, configs) && key in registry[n].entries && key !in {"tools", "plugins", "kind"} ==>
      key in Lookup(factories, n) || key in Lookup(configs, n)
  }

  lemma FilledFromNothing(registry: map<string, PyDict>, names: set<string>, defaults: Spec, factories: Specs, configs: Specs)
    requires Filled(registry, names, defaults, factories, configs)
    ensures ExternalsFromNothing(registry, factories, configs)
  {
    hide Entry;
    hide Lookup;
    forall n, key | n in registry && ExternallyBacked(n, configs) && key in registry[n].entries && key !in {"tools", "plugins", "kind"}
      ensures key in Lookup(factories, n) || key in Lookup(configs, n)
    {
      assert Holds(registry[n], Entry(n, defaults, factories, configs).value);
      assert key in registry[n].View();
      ExternalStartsFromNothing(n, defaults, map[], factories, configs);
    }
  }

  lemma FilledNothing(defaults: Spec, factories: Specs, configs: Specs)
    ensures Filled(map[], {}, defaults, factories, configs)
  {
  }

  lemma FilledOneMore(registry: map<string, PyDict>, names: set<string>, name: string, d: PyDict,
                      defaults: Spec, factories: Specs, configs: Specs)
    requires Filled(registry, names, defaults, factories, configs) && name !in names
    requires Entry(name, defaults, factories, configs).Ok? && Holds(d, Entry(name, defaults, factories, configs).value)
    requires forall n :: n in registry ==> registry[n].Repr !! d.Repr
    ensures Filled(registry[name := d], names + {name}, defaults, factories, configs)
  {
    hide PyDict.View;
    hide Entry;
  }

  lemma SameKeys(dicts: map<string, PyDict>, views: Specs)
    requires HoldsAll(dicts, views)
    ensures dicts.Keys == views.Keys
  {
  }

  method RegisterOne(name: string, defaults: PyDict, factories: map<string, PyDict>, configs: map<string, PyDict>,
                     ghost defaultView: Spec, ghost factoryViews: Specs, ghost configViews: Specs)
    returns (r: Result<PyDict, RegisterError>)
    requires Holds(defaults, defaultView) && HoldsAll(factories, factoryViews) && HoldsAll(configs, configViews)
    ensures r.Ok? <==> Entry(name, defaultView, factoryViews, configViews).Ok?
    ensures r.Ok? ==> fresh(r.value.Repr) && Holds(r.value, Entry(name, defaultView, factoryViews, configViews).value)
    ensures r.Err? ==> r.error == Entry(name, defaultView, factoryViews, configViews).error
  {
    hide PyDict.View;
    hide Merge;
    hide Registered;
    var factory := if name in factories then Some(factories[name]) else None;
    var config := if name in configs then Some(configs[name]) else None;
    var external := name in EXTERNAL_KINDS || (name in configs && RUNTIME in configs[name].entries);
    ghost var f, c := Lookup(factoryViews, name), Lookup(configViews, name);
    assert external <==> name in EXTERNAL_KINDS || RUNTIME in c;
    var merged := MergedTerms(defaults, factory, config, external, defaultView, f, c);
    r := Register(name, merged, Merged(defaultView, f, c, external));
  }

  /** The registration loop. */
  method RegisterAll(defaults: PyDict, factories: map<string, PyDict>, configs: map<string, PyDict>,
                     ghost defaultView: Spec, ghost factoryViews: Specs, ghost configViews: Specs)
    returns (r: Result<map<string, PyDict>, RegisterError>)
    requires Holds(defaults, defaultView) && HoldsAll(factories, factoryViews) && HoldsAll(configs, configViews)
    ensures Holds(defaults, defaultView) && HoldsAll(factories, factoryViews) && HoldsAll(configs, configViews)
    ensures r.Ok? ==> Filled(r.value, factoryViews.Keys + configViews.Keys, defaultView, factoryViews, configViews)
    ensures r.Ok? ==> ExternalsFromNothing(r.value, factoryViews, configViews)
    ensures r.Ok? ==> forall n :: n in r.value ==> fresh(r.value[n].Repr)
    ensures r.Err? ==> exists n :: n in factoryViews.Keys + configViews.Keys
                                   && Entry(n, defaultView, factoryViews, configViews) == Err(r.error)
  {
    hide PyDict.View;
    hide Entry;
    hide Filled;
    hide ExternalsFromNothing;
    hide HoldsAll;
    hide Holds;
    FilledNothing(defaultView, factoryViews, configViews);
    SameKeys(factories, factoryViews);
    SameKeys(configs, configViews);
    var registry, names, done := map[], factories.Keys + configs.Keys, {};
    ghost var all := factoryViews.Keys + configViews.Keys;
    while names != {}
      invariant names !! done && names + done == all
      invariant Filled(registry, done, defaultView, factoryViews, configViews)
      invariant forall n :: n in registry ==> fresh(registry[n].Repr)
      decreases names
    {
      var name :| name in names;
      var entry := RegisterOne(name, defaults, factories, configs, defaultView, factoryViews, configViews);
      if entry.Err? { return Err(entry.error); }
      FilledOneMore(registry, done, name, entry.value, defaultView, factoryViews, configViews);
      registry := registry[name := entry.value];
      names, done := names - {name}, done + {name};
    }
    FilledFromNothing(registry, done, defaultView, factoryViews, configViews);
    r := Ok(registry);
  }

  datatype BootError = RuntimeByHand(name: string) | Unresolved(why: ResolveError) | Refused(error: RegisterError)

  predicate ByHand(configs: Specs) { exists n :: n in configs && RUNTIME in configs[n] }

  /** The check that no table sets the marker the resolver writes. */
  method CheckMarkers(configs: map<string, PyDict>, ghost views: Specs) returns (r: Option<string>)
    requires HoldsAll(configs, views)
    ensures r.Some? <==> ByHand(views)
    ensures r.Some? ==> r.value in views && RUNTIME in views[r.value]
  {
    hide PyDict.View;
    var names := configs.Keys;
    while names != {}
      invariant names <= configs.Keys
      invariant forall n :: n in configs && n !in names ==> RUNTIME !in configs[n].entries
      decreases names
    {
      var name :| name in names;
      assert Holds(configs[name], views[name]);
      if RUNTIME in configs[name].entries { return Some(name); }
      names := names - {name};
    }
    forall n | n in views ensures RUNTIME !in views[n] { assert Holds(configs[n], views[n]); }
    r := None;
  }

  lemma SameNames(specs: Specs, factories: Specs)
    requires AllEnd(specs, factories)
    ensures AllResolved(specs, factories).Keys == specs.Keys
  {
  }

  lemma HoldsBoth(a: map<string, PyDict>, aViews: Specs, b: map<string, PyDict>, bViews: Specs)
    requires HoldsAll(a, aViews) && HoldsAll(b, bViews)
    ensures HoldsAll(a + b, aViews + bViews)
  {
    hide Holds;
  }

  /**
   Agent registration at bootstrap. The registry holds every factory and every table, each as its resolved
   chain over its factory terms over the defaults; nothing given is written, and nothing is shared.
  */
  method BootstrapAgents(defaults: PyDict, factories: map<string, PyDict>, externals: map<string, PyDict>, configs: map<string, PyDict>,
                         ghost defaultView: Spec, ghost factoryViews: Specs, ghost externalViews: Specs, ghost configViews: Specs)
    returns (r: Result<map<string, PyDict>, BootError>)
    requires Holds(defaults, defaultView) && HoldsAll(factories, factoryViews)
    requires HoldsAll(externals, externalViews) && HoldsAll(configs, configViews)
    ensures Holds(defaults, defaultView) && HoldsAll(factories, factoryViews)
    ensures HoldsAll(externals, externalViews) && HoldsAll(configs, configViews)
    ensures r.Err? && r.error.RuntimeByHand? <==> ByHand(configViews)
    ensures r.Err? && r.error.Unresolved? <==> !ByHand(configViews) && !AllEnd(configViews, factoryViews + externalViews)
    ensures r.Err? && r.error.Refused? ==> AllEnd(configViews, factoryViews + externalViews)
    ensures r.Err? && r.error.Refused? ==>
              exists n :: n in factoryViews.Keys + configViews.Keys
                          && Entry(n, defaultView, factoryViews, AllResolved(configViews, factoryViews + externalViews)) == Err(r.error.error)
    ensures r.Ok? ==> AllEnd(configViews, factoryViews + externalViews)
    ensures r.Ok? ==> var resolved := AllResolved(configViews, factoryViews + externalViews);
                      Filled(r.value, factoryViews.Keys + configViews.Keys, defaultView, factoryViews, resolved)
                      && ExternalsFromNothing(r.value, factoryViews, resolved)
    ensures r.Ok? ==> forall n :: n in r.value ==> fresh(r.value[n].Repr)
  {
    hide PyDict.View;
    hide Resolved;
    hide Holds;
    hide HoldsAll;
    hide Filled;
    hide ExternalsFromNothing;
    hide AllEnd;
    hide Explains;
    hide Entry;
    HoldsBoth(factories, factoryViews, externals, externalViews);
    var marked := CheckMarkers(configs, configViews);
    if marked.Some? { return Err(RuntimeByHand(marked.value)); }
    var resolved := ResolveAgentInheritance(configs, factories + externals, configViews, factoryViews + externalViews);
    if resolved.Err? { return Err(Unresolved(resolved.error)); }
    var registry := RegisterAll(defaults, factories, resolved.value, defaultView, factoryViews,
                                AllResolved(configViews, factoryViews + externalViews));
    SameNames(configViews, factoryViews + externalViews);
    if registry.Err? { return Err(Refused(registry.error)); }
    r := Ok(registry.value);
  }
}
