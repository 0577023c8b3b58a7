/** The two ways an agent gets a parent: `_parent` in its config table, and `_parent` in `agent_cfg`. */
module Registration {
  import opened Wrappers
  import opened DeepMerge
  import opened Inheritance

  const EXTERNAL_KINDS: set<string> := {"claude-code", "codex"}
  const RUNTIME := "external_runtime"
  const NO_PLUGINS := Dict(map["enabled" := ListLeaf([]), "disabled" := ListLeaf([])])

  // ------------------------------------------------------------------ registration at bootstrap

  /** The registration loop's merge for one name: defaults, then the factory spec, then the resolved config spec. */
  function Merged(defaults: Spec, factory: Spec, config: Spec, external: bool): Spec {
    Without(MergeSpec(MergeSpec(if external then map[] else defaults, factory), config), {"name", PARENT})
  }

  datatype RegisterError = ToolsNotAList | PluginsNotADict

  function IsNone(v: Option<Value>): bool { v.None? || v.value.NoneLeaf? }

  /** `AgentRegistry.register(name, **merged)`: the stored defaults. `description` is taken as a parameter of its own. */
  function Registered(name: string, merged: Spec): Result<Spec, RegisterError> {
    var tools, plugins := Get(merged, "tools"), Get(merged, "plugins");
    if !IsNone(tools) && !tools.value.ListLeaf? then Err(ToolsNotAList)
    else if !IsNone(plugins) && !plugins.value.Dict? then Err(PluginsNotADict)
    else
      var s := Without(merged, {"description"});
      var s := if tools.None? then s["tools" := ListLeaf([])] else s;
      var s := if IsNone(plugins) then s["plugins" := NO_PLUGINS] else s;
      Ok(s["kind" := Leaf(name)])
  }

  // ------------------------------------------------------------------ agent_cfg

  datatype CfgError = AlreadyRegistered | UnknownParent | KindContradicts | RuntimeContradicts

  /** `_resolve_agent_cfg_parent`, on a registry of stored defaults. */
  function ResolveCfgParent(kind: Option<string>, cfg: Spec, registry: map<string, Spec>): Result<Spec, CfgError>
    requires PARENT in cfg
  {
    var own, parent := Without(cfg, {PARENT}), cfg[PARENT];
    if parent.NoneLeaf? then Ok(own)
    else if kind.Some? && kind.value in registry then Err(AlreadyRegistered)
    else if !(parent.Leaf? && (parent.text in EXTERNAL_KINDS || parent.text in registry)) then Err(UnknownParent)
    else
      var seed: Spec := if parent.text in EXTERNAL_KINDS then map[RUNTIME := parent] else map[];
      var base := if parent.text in registry then MergeSpec(seed, Adopted(registry[parent.text], kind)) else seed;
      var runtime := if IsNone(Get(base, RUNTIME)) then NoneLeaf else base[RUNTIME];
      if kind.Some? && kind.value in EXTERNAL_KINDS && runtime != Leaf(kind.value) then Err(KindContradicts)
      else if RUNTIME in own && own[RUNTIME] != runtime then Err(RuntimeContradicts)
      else Ok(MergeSpec(base, own))
  }

  /** A registered parent's defaults with its identity replaced by the child's kind. */
  function Adopted(stored: Spec, kind: Option<string>): Spec {
    var s := Without(stored, {"kind", AGENT_NAME});
    if kind.Some? then s["kind" := Leaf(kind.value)] else s
  }

  // ------------------------------------------------------------------ the two routes agree

  /**
   A BOS parent with factory terms `factory` and resolved config spec `config`, under `defaults`, and a
   child's own settings: nobody names an external runtime, and what registration checks is in order.
  */
  predicate BosParent(defaults: Spec, factory: Spec, config: Spec, own: Spec) {
    && RUNTIME !in defaults && RUNTIME !in factory && RUNTIME !in config && RUNTIME !in own
    && PARENT !in own && "kind" !in own
  }

  /** Route one: the child is a config table with `_parent`, registered at bootstrap. */
  function ByConfig(child: string, defaults: Spec, factory: Spec, config: Spec, own: Spec): Result<Spec, RegisterError> {
    Registered(child, Merged(defaults, map[], MergeSpec(Inherited(factory, config), own), false))
  }

  /** Route two: the parent is registered at bootstrap and the child's settings arrive as `agent_cfg`. */
  function ByAgentCfg(child: string, parent: string, stored: Spec, own: Spec): Result<Spec, CfgError> {
    ResolveCfgParent(Some(child), own[PARENT := Leaf(parent)], map[parent := stored])
  }

  /** Route one is what the resolver and the registration loop do with such a table. */
  lemma ByConfigIsBootstrap(specs: Specs, factories: Specs, defaults: Spec, child: string, parent: string)
    requires child in specs && ParentOf(specs[child]) == Some(parent) && ChainEnds(specs, factories, child)
    ensures parent in specs ==> ChainEnds(specs, factories, parent)
    ensures Registered(child, Merged(defaults, map[], Resolved(specs, factories, child), false))
         == ByConfig(child, defaults, Lookup(factories, parent),
                     if parent in specs then Resolved(specs, factories, parent) else map[], Own(specs[child]))
  {
    ResolvedStep(specs, factories, child);
  }

  /** The value each route ends with at a key no later step touches. */
  lemma ByConfigAt(child: string, defaults: Spec, factory: Spec, config: Spec, own: Spec, key: string)
    requires ByConfig(child, defaults, factory, config, own).Ok?
    requires key !in {"name", PARENT, "description", "kind", AGENT_NAME}
    ensures var whole := Combine(Get(defaults, key), Combine(Get(MergeSpec(factory, config), key), Get(own, key)));
            var r := ByConfig(child, defaults, factory, config, own).value;
            Get(r, key) == if key == "tools" && whole.None? then Some(ListLeaf([]))
                           else if key == "plugins" && IsNone(whole) then Some(NO_PLUGINS) else whole
  {
    var inherited := Inherited(factory, config);
    var resolved := MergeSpec(inherited, own);
    assert Get(inherited, key) == Get(MergeSpec(factory, config), key);
    GetMerge(inherited, own, key);
    MergeEmpty(defaults);
    GetMerge(defaults, resolved, key);
    hide MergeSpec;
    hide Combine;
    var merged := Merged(defaults, map[], resolved, false);
    assert Get(merged, key) == Get(MergeSpec(defaults, resolved), key);
  }

  /** What registration stored for the parent, at one key. */
  lemma StoredAt(parent: string, defaults: Spec, factory: Spec, config: Spec, stored: Spec, key: string)
    requires Registered(parent, Merged(defaults, factory, config, false)) == Ok(stored)
    requires key !in {"name", PARENT, "description", "kind"}
    ensures var whole := Combine(Combine(Get(defaults, key), Get(factory, key)), Get(config, key));
            Get(stored, key) == if key == "tools" && whole.None? then Some(ListLeaf([]))
                                else if key == "plugins" && IsNone(whole) then Some(NO_PLUGINS) else whole
  {
    var merged := Merged(defaults, factory, config, false);
    GetMerge(defaults, factory, key);
    GetMerge(MergeSpec(defaults, factory), config, key);
    assert Get(merged, key) == Get(MergeSpec(MergeSpec(defaults, factory), config), key);
  }

  /** With a BOS parent the merge is reached, and is the child's settings over the adopted defaults. */
  lemma ByAgentCfgUnfolds(child: string, parent: string, stored: Spec, own: Spec)
    requires parent !in EXTERNAL_KINDS && child !in EXTERNAL_KINDS && child != parent
    requires PARENT !in own && RUNTIME !in own && RUNTIME !in stored
    ensures ByAgentCfg(child, parent, stored, own) == Ok(MergeSpec(Adopted(stored, Some(child)), own))
  {
    assert Without(own[PARENT := Leaf(parent)], {PARENT}) == own;
    MergeEmpty(Adopted(stored, Some(child)));
  }

  lemma ByAgentCfgAt(child: string, parent: string, defaults: Spec, factory: Spec, config: Spec, own: Spec, stored: Spec, key: string)
    requires BosParent(defaults, factory, config, own) && parent !in EXTERNAL_KINDS && child !in EXTERNAL_KINDS && child != parent
    requires Registered(parent, Merged(defaults, factory, config, false)) == Ok(stored)
    requires key !in {"name", PARENT, "description", "kind", AGENT_NAME}
    ensures ByAgentCfg(child, parent, stored, own).Ok?
    ensures Get(ByAgentCfg(child, parent, stored, own).value, key) == Combine(Get(stored, key), Get(own, key))
  {
    StoredAt(parent, defaults, factory, config, stored, RUNTIME);
    ByAgentCfgUnfolds(child, parent, stored, own);
    GetMerge(Adopted(stored, Some(child)), own, key);
    assert Get(Adopted(stored, Some(child)), key) == Get(stored, key);
  }

  predicate Plain(key: string) { key !in {"name", PARENT, "description", "kind", AGENT_NAME, "plugins"} }

  /** The four terms of a setting allow both orders of merging; no merge of them is needed to see it. */
  predicate Agreeable(defaults: Spec, factory: Spec, config: Spec, own: Spec, key: string) {
    AgreeAt(Get(defaults, key), Get(factory, key), Get(config, key), Get(own, key))
  }

  /** A setting that the child sets to something else than a dict, or whose default is no dict, always does. */
  lemma LeavesAgree(defaults: Spec, factory: Spec, config: Spec, own: Spec, key: string)
    requires (key in own && !own[key].Dict?) || (key in defaults ==> !defaults[key].Dict?)
    ensures Agreeable(defaults, factory, config, own, key)
  {
  }

  /** What registration fills in for a missing `tools` makes no difference to the comparison. */
  lemma FillingToolsIsNeutral(stored: Option<Value>, own: Option<Value>, whole: Option<Value>)
    requires stored.None? ==> whole == own
    requires whole.None? ==> stored.None? && own.None?
    ensures var filled := Some(ListLeaf([]));
            ((if whole.None? then filled else whole) == Combine(if stored.None? then filled else stored, own)) == (whole == Combine(stored, own))
  {
  }

  /**
   The two routes build the same agent: at every setting that is not identity, description or plugins,
   `tools` included, they agree if and only if the terms of the parent, a factory agent or not, and of the
   child allow both orders of merging there.
  */
  lemma RoutesAgreeIff(child: string, parent: string, defaults: Spec, factory: Spec, config: Spec, own: Spec, stored: Spec, key: string)
    requires BosParent(defaults, factory, config, own) && parent !in EXTERNAL_KINDS && child !in EXTERNAL_KINDS && child != parent
    requires Registered(parent, Merged(defaults, factory, config, false)) == Ok(stored)
    requires ByConfig(child, defaults, factory, config, own).Ok? && Plain(key)
    ensures ByAgentCfg(child, parent, stored, own).Ok?
    ensures (Get(ByConfig(child, defaults, factory, config, own).value, key) == Get(ByAgentCfg(child, parent, stored, own).value, key))
         == Agreeable(defaults, factory, config, own, key)
  {
    ByConfigAt(child, defaults, factory, config, own, key);
    StoredAt(parent, defaults, factory, config, stored, key);
    ByAgentCfgAt(child, parent, defaults, factory, config, own, stored, key);
    GetMerge(factory, config, key);
    hide ByConfig;
    hide ByAgentCfg;
    hide Registered;
    hide Merged;
    hide BosParent;
    var d, f, c, o := Get(defaults, key), Get(factory, key), Get(config, key), Get(own, key);
    OrdersAgreeIff(d, f, c, o);
    FillingToolsIsNeutral(Combine(Combine(d, f), c), o, Underneath(d, f, c, o));
  }

  /** One list of a `plugins` setting as the harness reads it when it binds plugins. */
  function PluginList(plugins: Option<Value>, list: string): Value {
    if plugins.Some? && plugins.value.Dict? && list in plugins.value.entries then plugins.value.entries[list] else ListLeaf([])
  }

  function Filled(plugins: Option<Value>): Option<Value> { if IsNone(plugins) then Some(NO_PLUGINS) else plugins }

  /** Filling in the empty lists before or after the child's settings are merged reads the same. */
  lemma FillingReadsTheSame(inherited: Option<Value>, own: Option<Value>, list: string)
    requires list in {"enabled", "disabled"} && (IsNone(inherited) || inherited.value.Dict?)
    requires own.Some? ==> own.value.Dict? && (list in own.value.entries ==> own.value.entries[list].ListLeaf?)
    ensures PluginList(Filled(Combine(inherited, own)), list) == PluginList(Combine(Filled(inherited), own), list)
  {
    if IsNone(inherited) && own.Some? {
      var merged := Merge(NO_PLUGINS, own.value);
      assert Combine(Filled(inherited), own) == Some(merged) && Combine(inherited, own) == own;
      GetMerge(NO_PLUGINS.entries, own.value.entries, list);
      assert merged.entries == MergeSpec(NO_PLUGINS.entries, own.value.entries);
      assert Get(NO_PLUGINS.entries, list) == Some(ListLeaf([]));
      assert inherited.Some? ==> Merge(inherited.value, own.value) == own.value;
    }
  }

  /**
   The plugins setting may differ by the empty lists registration fills in for the parent, yet the
   lists the harness reads from it are the same.
  */
  lemma RoutesBindTheSamePlugins(child: string, parent: string, defaults: Spec, factory: Spec, config: Spec, own: Spec, stored: Spec, list: string)
    requires BosParent(defaults, factory, config, own) && parent !in EXTERNAL_KINDS && child !in EXTERNAL_KINDS && child != parent
    requires Registered(parent, Merged(defaults, factory, config, false)) == Ok(stored)
    requires ByConfig(child, defaults, factory, config, own).Ok? && list in {"enabled", "disabled"}
    requires Agreeable(defaults, factory, config, own, "plugins")
    requires "plugins" in own ==> own["plugins"].Dict? && (list in own["plugins"].entries ==> own["plugins"].entries[list].ListLeaf?)
    ensures ByAgentCfg(child, parent, stored, own).Ok?
    ensures PluginList(Get(ByConfig(child, defaults, factory, config, own).value, "plugins"), list)
         == PluginList(Get(ByAgentCfg(child, parent, stored, own).value, "plugins"), list)
  {
    var key := "plugins";
    ByConfigAt(child, defaults, factory, config, own, key);
    StoredAt(parent, defaults, factory, config, stored, key);
    ByAgentCfgAt(child, parent, defaults, factory, config, own, stored, key);
    GetMerge(factory, config, key);
    OrdersAgreeIff(Get(defaults, key), Get(factory, key), Get(config, key), Get(own, key));
    var whole := Combine(Combine(Get(defaults, key), Get(factory, key)), Get(config, key));
    PluginsAreDicts(parent, defaults, factory, config, stored);
    FillingReadsTheSame(whole, Get(own, key), list);
  }

  lemma PluginsAreDicts(parent: string, defaults: Spec, factory: Spec, config: Spec, stored: Spec)
    requires Registered(parent, Merged(defaults, factory, config, false)) == Ok(stored)
    ensures var whole := Combine(Combine(Get(defaults, "plugins"), Get(factory, "plugins")), Get(config, "plugins"));
            IsNone(whole) || whole.value.Dict?
  {
    GetMerge(defaults, factory, "plugins");
    GetMerge(MergeSpec(defaults, factory), config, "plugins");
    assert Get(Merged(defaults, factory, config, false), "plugins") == Get(MergeSpec(MergeSpec(defaults, factory), config), "plugins");
  }

  /** Identity by config: the child's own kind, and an `agent_name` from its own table or the defaults. */
  lemma ConfigIdentity(child: string, defaults: Spec, factory: Spec, config: Spec, own: Spec)
    requires ByConfig(child, defaults, factory, config, own).Ok?
    ensures var a := ByConfig(child, defaults, factory, config, own).value;
            Get(a, "kind") == Some(Leaf(child)) && Get(a, AGENT_NAME) == Combine(Get(defaults, AGENT_NAME), Get(own, AGENT_NAME))
  {
    var inherited := Inherited(factory, config);
    GetMerge(inherited, own, AGENT_NAME);
    MergeEmpty(defaults);
    GetMerge(defaults, MergeSpec(inherited, own), AGENT_NAME);
    var merged := Merged(defaults, map[], MergeSpec(inherited, own), false);
    assert Get(merged, AGENT_NAME) == Get(MergeSpec(defaults, MergeSpec(inherited, own)), AGENT_NAME);
  }

  /** Identity by `agent_cfg`: the same kind, but an `agent_name` from the defaults is lost with the parent's. */
  lemma AgentCfgIdentity(child: string, parent: string, stored: Spec, own: Spec)
    requires parent !in EXTERNAL_KINDS && child !in EXTERNAL_KINDS && child != parent
    requires PARENT !in own && RUNTIME !in own && RUNTIME !in stored && "kind" !in own
    ensures ByAgentCfg(child, parent, stored, own).Ok?
    ensures var b := ByAgentCfg(child, parent, stored, own).value;
            Get(b, "kind") == Some(Leaf(child)) && Get(b, AGENT_NAME) == Get(own, AGENT_NAME)
  {
    ByAgentCfgUnfolds(child, parent, stored, own);
    GetMerge(Adopted(stored, Some(child)), own, AGENT_NAME);
    GetMerge(Adopted(stored, Some(child)), own, "kind");
  }

  /** The runtime a value names; null names none. */
  function RuntimeOf(v: Option<Value>): Value { if IsNone(v) then NoneLeaf else v.value }

  /** The runtime a parent stands for: what it was registered with, else the reserved runtime of that name. */
  function ParentRuntime(parent: string, registry: map<string, Spec>): Value {
    if parent in registry && RUNTIME in registry[parent] then RuntimeOf(Get(registry[parent], RUNTIME))
    else if parent in EXTERNAL_KINDS then Leaf(parent) else NoneLeaf
  }

  /** A reserved kind is given its own runtime only. */
  predicate KindFits(kind: Option<string>, runtime: Value) { kind.Some? && kind.value in EXTERNAL_KINDS ==> runtime == Leaf(kind.value) }

  /** What a named parent must be to be found. */
  predicate Known(parent: Value, registry: map<string, Spec>) {
    parent.Leaf? && (parent.text in EXTERNAL_KINDS || parent.text in registry)
  }

  /**
   An `agent_cfg` with a parent is accepted if and only if its kind is not registered, its parent is a reserved runtime
   or registered, and neither its kind nor its settings name another runtime than the parent's; else the first of
   these that fails is the error. A null parent is no parent, and is always accepted.
  */
  lemma AcceptedIff(kind: Option<string>, cfg: Spec, registry: map<string, Spec>)
    requires PARENT in cfg
    ensures cfg[PARENT].NoneLeaf? ==> ResolveCfgParent(kind, cfg, registry) == Ok(Without(cfg, {PARENT}))
    ensures !cfg[PARENT].NoneLeaf? ==>
              var taken := kind.Some? && kind.value in registry;
              var r := ResolveCfgParent(kind, cfg, registry);
              && (r == Err(AlreadyRegistered) <==> taken)
              && (r == Err(UnknownParent) <==> !taken && !Known(cfg[PARENT], registry))
              && (!taken && Known(cfg[PARENT], registry) ==>
                    var runtime := ParentRuntime(cfg[PARENT].text, registry);
                    && (r == Err(KindContradicts) <==> !KindFits(kind, runtime))
                    && (r == Err(RuntimeContradicts) <==> KindFits(kind, runtime) && RUNTIME in cfg && cfg[RUNTIME] != runtime)
                    && (r.Ok? <==> KindFits(kind, runtime) && (RUNTIME in cfg ==> cfg[RUNTIME] == runtime)))
  {
    var parent := cfg[PARENT];
    if Known(parent, registry) {
      BaseRuntime(kind, parent.text, registry);
      if parent.text in EXTERNAL_KINDS && parent.text !in registry { assert Get(map[RUNTIME := parent], RUNTIME) == Some(parent); }
    }
    hide MergeSpec;
  }

  /** The runtime under a child's settings is its parent's. */
  lemma BaseRuntime(kind: Option<string>, parent: string, registry: map<string, Spec>)
    requires parent in EXTERNAL_KINDS || parent in registry
    ensures var seed: Spec := if parent in EXTERNAL_KINDS then map[RUNTIME := Leaf(parent)] else map[];
            RuntimeOf(Get(if parent in registry then MergeSpec(seed, Adopted(registry[parent], kind)) else seed, RUNTIME))
            == ParentRuntime(parent, registry)
  {
    var seed: Spec := if parent in EXTERNAL_KINDS then map[RUNTIME := Leaf(parent)] else map[];
    if parent in registry {
      GetMerge(seed, Adopted(registry[parent], kind), RUNTIME);
      assert Get(Adopted(registry[parent], kind), RUNTIME) == Get(registry[parent], RUNTIME);
    }
  }

  /** What an accepted child holds: at every setting of its own, its value over the parent's, and no identity of the parent's. */
  lemma AcceptedAt(kind: Option<string>, cfg: Spec, registry: map<string, Spec>, key: string)
    requires PARENT in cfg && cfg[PARENT].Leaf? && ResolveCfgParent(kind, cfg, registry).Ok? && key !in {PARENT, RUNTIME}
    ensures var r := ResolveCfgParent(kind, cfg, registry).value;
            var theirs := if key == "kind" && kind.Some? && cfg[PARENT].text in registry then Some(Leaf(kind.value))
                          else if key in {"kind", AGENT_NAME} then None else Get(Lookup(registry, cfg[PARENT].text), key);
            Get(r, key) == Combine(theirs, Get(cfg, key))
  {
    var parent, own := cfg[PARENT], Without(cfg, {PARENT});
    var seed: Spec := if parent.text in EXTERNAL_KINDS then map[RUNTIME := parent] else map[];
    var base := if parent.text in registry then MergeSpec(seed, Adopted(registry[parent.text], kind)) else seed;
    if parent.text in registry { GetMerge(seed, Adopted(registry[parent.text], kind), key); }
    GetMerge(base, own, key);
    assert Get(own, key) == Get(cfg, key);
    hide MergeSpec;
  }

  /**
   Whenever an `agent_cfg` with a parent is accepted, the agent runs on its parent's runtime whatever else the
   settings say, a reserved kind only on its own; its kind had no lineage before and its parent is known.
  */
  lemma AcceptedMeansTheParentsRuntime(kind: Option<string>, cfg: Spec, registry: map<string, Spec>)
    requires PARENT in cfg && cfg[PARENT].Leaf? && ResolveCfgParent(kind, cfg, registry).Ok?
    requires forall n :: n in registry && RUNTIME in registry[n] ==> !registry[n][RUNTIME].Dict?
    ensures var parent := cfg[PARENT].text;
            && RuntimeOf(Get(ResolveCfgParent(kind, cfg, registry).value, RUNTIME)) == ParentRuntime(parent, registry)
            && (parent in registry || parent in EXTERNAL_KINDS)
            && (kind.Some? ==> kind.value !in registry)
            && (kind.Some? && kind.value in EXTERNAL_KINDS ==> ParentRuntime(parent, registry) == Leaf(kind.value))
  {
    var parent, own := cfg[PARENT], Without(cfg, {PARENT});
    var seed: Spec := if parent.text in EXTERNAL_KINDS then map[RUNTIME := parent] else map[];
    var base := if parent.text in registry then MergeSpec(seed, Adopted(registry[parent.text], kind)) else seed;
    BaseRuntime(kind, parent.text, registry);
    GetMerge(base, own, RUNTIME);
  }
}
