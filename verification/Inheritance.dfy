/** `_parent` inheritance among agent specs, as one explicit fold up each parent chain. */
module Inheritance {
  import opened Wrappers
  import opened DeepMerge

  type Specs = map<string, Spec>

  const PARENT := "_parent"
  const AGENT_NAME := "agent_name"

  /** The config schema types `_parent` as a string or null; null is no parent. */
  function ParentOf(spec: Spec): Option<string> {
    if PARENT in spec && spec[PARENT].Leaf? then Some(spec[PARENT].text) else None
  }

  /** The spec without its inheritance directive. */
  function Own(spec: Spec): Spec { Without(spec, {PARENT}) }

  function Lookup(specs: Specs, name: string): Spec { if name in specs then specs[name] else map[] }

  /**
   The parent chain of `name` ends after exactly `n` steps through `specs`: at a spec without a
   parent, or at one whose parent exists as a factory agent only.
  */
  predicate EndsAfter(specs: Specs, factories: Specs, name: string, n: nat)
    decreases n
  {
    name in specs &&
    match ParentOf(specs[name])
    case None => n == 0
    case Some(p) => if p in specs then n > 0 && EndsAfter(specs, factories, p, n - 1) else n == 0 && p in factories
  }

  ghost predicate ChainEnds(specs: Specs, factories: Specs, name: string) {
    exists n: nat :: EndsAfter(specs, factories, name, n)
  }

  /** What a child sees of its parent: factory terms underneath the parent's own spec, identity dropped. */
  function Inherited(factory: Spec, parent: Spec): Spec { Without(MergeSpec(factory, parent), {AGENT_NAME}) }

  /** The fold: each spec merged over what it inherits. */
  function Fold(specs: Specs, factories: Specs, name: string, n: nat): Spec
    requires EndsAfter(specs, factories, name, n)
    decreases n
  {
    var own := Own(specs[name]);
    match ParentOf(specs[name])
    case None => own
    case Some(p) =>
      var above := if p in specs then Fold(specs, factories, p, n - 1) else map[];
      MergeSpec(Inherited(Lookup(factories, p), above), own)
  }

  lemma {:induction false} LengthIsUnique(specs: Specs, factories: Specs, name: string, n: nat, m: nat)
    requires EndsAfter(specs, factories, name, n) && EndsAfter(specs, factories, name, m)
    ensures n == m
    decreases n
  {
    if n > 0 && m > 0 { LengthIsUnique(specs, factories, ParentOf(specs[name]).value, n - 1, m - 1); }
  }

  ghost function Length(specs: Specs, factories: Specs, name: string): (n: nat)
    requires ChainEnds(specs, factories, name)
    ensures EndsAfter(specs, factories, name, n)
  {
    var n: nat :| EndsAfter(specs, factories, name, n); n
  }

  /** The resolved spec of `name`, whatever order names are visited in. */
  ghost function Resolved(specs: Specs, factories: Specs, name: string): Spec
    requires ChainEnds(specs, factories, name)
  {
    Fold(specs, factories, name, Length(specs, factories, name))
  }

  /** One level of the fold, in terms of the parent's resolved spec. */
  lemma ResolvedStep(specs: Specs, factories: Specs, name: string)
    requires name in specs
    ensures var parent := ParentOf(specs[name]);
            ChainEnds(specs, factories, name) <==>
              (parent.None? || (if parent.value in specs then ChainEnds(specs, factories, parent.value) else parent.value in factories))
    ensures ChainEnds(specs, factories, name) ==>
              var parent := ParentOf(specs[name]);
              Resolved(specs, factories, name) ==
                if parent.None? then Own(specs[name])
                else MergeSpec(Inherited(Lookup(factories, parent.value),
                                         if parent.value in specs then Resolved(specs, factories, parent.value) else map[]),
                               Own(specs[name]))
  {
    var parent := ParentOf(specs[name]);
    if ChainEnds(specs, factories, name) {
      var n := Length(specs, factories, name);
      if parent.Some? && parent.value in specs {
        assert EndsAfter(specs, factories, parent.value, n - 1);
        LengthIsUnique(specs, factories, parent.value, n - 1, Length(specs, factories, parent.value));
      }
    }
    if parent.None? || (parent.value !in specs && parent.value in factories) {
      assert EndsAfter(specs, factories, name, 0);
    } else if parent.value in specs && ChainEnds(specs, factories, parent.value) {
      assert EndsAfter(specs, factories, name, Length(specs, factories, parent.value) + 1);
    }
  }

  // ------------------------------------------------------------------ chains and cycles

  /** Each name's parent is the next one. */
  predicate Linked(specs: Specs, chain: seq<string>) {
    && (forall i :: 0 <= i < |chain| ==> chain[i] in specs)
    && (forall i :: 0 <= i < |chain| - 1 ==> ParentOf(specs[chain[i]]) == Some(chain[i + 1]))
  }

  lemma {:induction false} LinkedEnds(specs: Specs, factories: Specs, chain: seq<string>, n: nat)
    requires Linked(specs, chain) && chain != [] && EndsAfter(specs, factories, chain[0], n)
    ensures |chain| - 1 <= n && EndsAfter(specs, factories, chain[|chain| - 1], n - (|chain| - 1))
    decreases |chain|
  {
    if |chain| > 1 {
      assert ParentOf(specs[chain[0]]) == Some(chain[1]) && chain[1] in specs;
      LinkedEnds(specs, factories, chain[1..], n - 1);
    }
  }

  /** A chain that returns to a name it has seen never ends, for any name on it. */
  lemma CycleNeverEnds(specs: Specs, factories: Specs, chain: seq<string>, i: nat)
    requires Linked(specs, chain) && i < |chain| - 1 && chain[i] == chain[|chain| - 1]
    ensures forall j :: 0 <= j < |chain| ==> !ChainEnds(specs, factories, chain[j])
  {
    forall j | 0 <= j < |chain| ensures !ChainEnds(specs, factories, chain[j]) {
      if ChainEnds(specs, factories, chain[j]) {
        var n := Length(specs, factories, chain[j]);
        LinkedEnds(specs, factories, chain[j..], n);
        var last := n - (|chain| - 1 - j);
        LinkedEnds(specs, factories, chain[i..], last);
        LengthIsUnique(specs, factories, chain[i], last, last - (|chain| - 1 - i));
      }
    }
  }

  // ------------------------------------------------------------------ what a resolved spec contains

  /** Some factory agent the chain passes as a parent carries a `_parent` key of its own. */
  predicate FactoryLeaks(specs: Specs, factories: Specs, name: string, n: nat)
    requires EndsAfter(specs, factories, name, n)
    decreases n
  {
    var parent := ParentOf(specs[name]);
    parent.Some? && (PARENT in Lookup(factories, parent.value)
                     || (parent.value in specs && FactoryLeaks(specs, factories, parent.value, n - 1)))
  }

  /**
   The resolver's promise that `_parent` is stripped from every returned spec holds exactly when no
   factory spec on the way up carries one: only the specs' own directives are popped.
  */
  lemma {:induction false} ParentStrippedIff(specs: Specs, factories: Specs, name: string, n: nat)
    requires EndsAfter(specs, factories, name, n)
    ensures PARENT !in Fold(specs, factories, name, n) <==> !FactoryLeaks(specs, factories, name, n)
    decreases n
  {
    var parent := ParentOf(specs[name]);
    if parent.Some? && parent.value in specs { ParentStrippedIff(specs, factories, parent.value, n - 1); }
  }

  /** The smallest tables on which it fails: one agent, one factory agent it names, and a `_parent` in the factory's spec. */
  lemma FactoryParentLeaks(grandparent: Value)
    ensures var specs: Specs := map["a" := map[PARENT := Leaf("b")]];
            var factories: Specs := map["b" := map[PARENT := grandparent]];
            ChainEnds(specs, factories, "a") && PARENT in Resolved(specs, factories, "a") && Resolved(specs, factories, "a")[PARENT] == grandparent
  {
    var specs: Specs := map["a" := map[PARENT := Leaf("b")]];
    var factories: Specs := map["b" := map[PARENT := grandparent]];
    assert EndsAfter(specs, factories, "a", 0);
    ResolvedStep(specs, factories, "a");
    MergeEmpty(factories["b"]);
    assert Own(specs["a"]) == map[];
    MergeEmpty(Inherited(factories["b"], map[]));
  }

  /** Identity is not inherited: `agent_name` is in a resolved spec exactly when the agent's own table sets it. */
  lemma AgentNameIsOwn(specs: Specs, factories: Specs, name: string, n: nat)
    requires EndsAfter(specs, factories, name, n)
    ensures AGENT_NAME in Fold(specs, factories, name, n) <==> AGENT_NAME in specs[name]
    ensures AGENT_NAME in specs[name] ==> Fold(specs, factories, name, n)[AGENT_NAME] == specs[name][AGENT_NAME]
  {
  }

  /** A setting is the child's own over its parent's, and that over what the factory of the parent's name says; nothing else comes in. */
  lemma FoldAt(specs: Specs, factories: Specs, name: string, n: nat, key: string)
    requires EndsAfter(specs, factories, name, n) && key !in {PARENT, AGENT_NAME}
    ensures var parent := ParentOf(specs[name]);
            Get(Fold(specs, factories, name, n), key) ==
              if parent.None? then Get(specs[name], key)
              else Combine(Combine(Get(Lookup(factories, parent.value), key),
                                   if parent.value in specs then Get(Fold(specs, factories, parent.value, n - 1), key) else None),
                           Get(specs[name], key))
  {
    var parent := ParentOf(specs[name]);
    if parent.Some? {
      var above := if parent.value in specs then Fold(specs, factories, parent.value, n - 1) else map[];
      var factory := Lookup(factories, parent.value);
      GetMerge(factory, above, key);
      GetMerge(Inherited(factory, above), Own(specs[name]), key);
    }
    hide MergeSpec;
    hide Combine;
  }

  /** A leaf the child sets wins over everything it inherits. */
  lemma ChildWins(specs: Specs, factories: Specs, name: string, n: nat, key: string)
    requires EndsAfter(specs, factories, name, n) && key in specs[name] && key != PARENT && !specs[name][key].Dict?
    ensures key in Fold(specs, factories, name, n) && Fold(specs, factories, name, n)[key] == specs[name][key]
  {
    var parent := ParentOf(specs[name]);
    if parent.Some? {
      var above := if parent.value in specs then Fold(specs, factories, parent.value, n - 1) else map[];
      OverrideWins(Inherited(Lookup(factories, parent.value), above), Own(specs[name]), key);
    }
  }
}
