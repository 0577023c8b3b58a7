/**
 The configuration dicts as the mutable objects they are: `_deep_merge` writes into its base in place
 and shares the override's nested dicts, so what may be written, and who shares what, is part of the proof.
*/
module ConfigHeap {
  import opened Wrappers
  import opened DeepMerge

  datatype Item = Atom(value: Value) | Nested(dict: PyDict)

  /** A Python dict. `Repr` is a set of dicts that holds all those reachable from it, a tree when `Valid`. */
  class PyDict {
    var entries: map<string, Item>
    ghost var Repr: set<PyDict>

    ghost predicate Valid()
      reads this, Repr
      decreases Repr
    {
      && this in Repr
      && (forall k :: k in entries ==>
            match entries[k]
            case Atom(v) => !v.Dict?
            case Nested(d) => d in Repr && d.Repr <= Repr - {this} && d.Valid())
      && (forall j, k :: j in entries && k in entries && j != k && entries[j].Nested? && entries[k].Nested? ==>
            entries[j].dict.Repr !! entries[k].dict.Repr)
    }

    ghost function View(): (s: Spec)
      requires Valid()
      reads this, Repr
      ensures s.Keys == entries.Keys
      decreases Repr
    {
      map k | k in entries :: match entries[k] case Atom(v) => v case Nested(d) => Dict(d.View())
    }

    constructor ()
      ensures Valid() && fresh(this) && Repr == {this} && View() == map[] && entries == map[]
    {
      entries, Repr := map[], {this};
    }

    /** `dict(other)` without `skip`: a new dict that shares the nested ones. */
    constructor Shallow(other: PyDict, skip: string)
      requires other.Valid()
      ensures fresh(this) && Repr == {this} + (other.Repr - {other}) && Valid() && View() == Without(other.View(), {skip})
    {
      entries := other.entries - {skip};
      Repr := {this} + (other.Repr - {other});
    }

    /** `pop(key, None)`. */
    method Pop(key: string)
      requires Valid()
      modifies this
      ensures Valid() && Repr == old(Repr) && View() == Without(old(View()), {key})
    {
      entries := entries - {key};
    }
  }

  ghost predicate ItemValid(i: Item)
    reads if i.Nested? then {i.dict} + i.dict.Repr else {}
  {
    if i.Nested? then i.dict.Valid() else !i.value.Dict?
  }

  ghost function ItemView(i: Item): Value
    requires ItemValid(i)
    reads if i.Nested? then {i.dict} + i.dict.Repr else {}
  {
    match i case Atom(v) => v case Nested(d) => Dict(d.View())
  }

  ghost function Tree(i: Item): set<PyDict>
    reads if i.Nested? then {i.dict} else {}
  {
    if i.Nested? then i.dict.Repr else {}
  }

  /** The dicts a write at `k` may reach. */
  ghost function Under(d: PyDict, k: string): set<PyDict>
    reads d, if k in d.entries && d.entries[k].Nested? then {d.entries[k].dict} else {}
  {
    if k in d.entries then Tree(d.entries[k]) else {}
  }

  // ------------------------------------------------------------------ _deep_merge

  /** The trees under the nested dicts of `base`. */
  ghost function ChildReprs(base: PyDict): map<string, set<PyDict>>
    reads base, set k | k in base.entries && base.entries[k].Nested? :: base.entries[k].dict
  {
    map k | k in base.entries && base.entries[k].Nested? :: base.entries[k].dict.Repr
  }

  predicate Apart(reprs: map<string, set<PyDict>>) {
    forall i, j :: i in reprs && j in reprs && i != j ==> reprs[i] !! reprs[j]
  }

  lemma OneChildReplaced(reprs: map<string, set<PyDict>>, k: string, tree: set<PyDict>, whole: set<PyDict>, extra: set<PyDict>)
    requires Apart(reprs) && k in reprs && (forall j :: j in reprs ==> reprs[j] <= whole)
    requires tree <= reprs[k] + extra && extra !! whole
    ensures Apart(reprs[k := tree])
  {
    forall j | j in reprs && j != k ensures reprs[j] !! tree { assert reprs[j] !! reprs[k]; }
  }

  /** Children that are valid, inside and apart make a valid dict. */
  lemma Assemble(base: PyDict, reprs: map<string, set<PyDict>>)
    requires base in base.Repr && Apart(reprs)
    requires forall j :: j in base.entries && base.entries[j].Atom? ==> !base.entries[j].value.Dict?
    requires forall j :: j in base.entries && base.entries[j].Nested? ==>
               j in reprs && base.entries[j].dict in base.Repr && reprs[j] <= base.Repr - {base}
               && base.entries[j].dict.Repr == reprs[j] && base.entries[j].dict.Valid()
    ensures base.Valid()
  {
  }

  lemma AssembleView(base: PyDict, k: string, view: Spec)
    requires base.Valid() && view.Keys + {k} == base.entries.Keys
    requires forall j :: j in base.entries && j != k ==> base.View()[j] == view[j]
    ensures base.View() == view[k := base.View()[k]]
  {
  }

  lemma ViewAt(d: PyDict, k: string)
    requires d.Valid() && k in d.entries
    ensures ItemValid(d.entries[k]) && d.View()[k] == ItemView(d.entries[k])
  {
  }

  lemma NestedIffDict(d: PyDict, k: string)
    requires d.Valid() && k in d.entries
    ensures d.View()[k].Dict? <==> d.entries[k].Nested?
  {
  }

  lemma ViewReplaced(d: PyDict, k: string, before: Spec)
    requires d.Valid() && k in d.entries && before.Keys + {k} == d.entries.Keys
    requires forall j :: j in d.entries && j != k ==> before[j] == ItemView(d.entries[j])
    ensures d.View() == before[k := ItemView(d.entries[k])]
  {
  }

  /** The `else` of the loop: the override's item replaces what the base holds under `k`. */
  method Replace(base: PyDict, k: string, item: Item)
    requires base.Valid() && ItemValid(item) && Tree(item) !! base.Repr
    modifies base
    ensures base.Valid() && base.entries == old(base.entries)[k := item] && base.Repr == old(base.Repr) + Tree(item)
    ensures base.View() == old(base.View())[k := ItemView(item)]
  {
    hide PyDict.View;
    ghost var before := base.View();
    forall j | j in base.entries ensures before[j] == ItemView(base.entries[j]) { ViewAt(base, j); }
    base.entries := base.entries[k := item];
    base.Repr := base.Repr + Tree(item);
    ViewReplaced(base, k, before);
  }

  /** Merge into the nested dict under `k`; its siblings do not notice. */
  method MergeChild(base: PyDict, k: string, d: PyDict)
    requires base.Valid() && k in base.entries && base.entries[k].Nested?
    requires d.Valid() && d.Repr !! base.Repr
    modifies base, Under(base, k)
    ensures base.entries == old(base.entries) && base.Repr == old(base.Repr) + old(d.Repr)
    ensures forall j :: j in base.entries && base.entries[j].Nested? && j != k ==>
              base.entries[j].dict.Valid() && base.entries[j].dict.Repr == old(base.entries[j].dict.Repr)
              && base.entries[j].dict.View() == old(base.entries[j].dict.View())
    ensures var child := base.entries[k].dict;
            && child.Valid() && child.Repr <= old(child.Repr) + old(d.Repr)
            && child.View() == MergeSpec(old(child.View()), old(d.View()))
    decreases d.Repr, 2
  {
    hide PyDict.View;
    hide MergeSpec;
    var child := base.entries[k].dict;
    ghost var whole := base.Repr + d.Repr;
    DeepMergeInto(child, d);
    base.Repr := whole;
    forall j | j in base.entries && base.entries[j].Nested? && j != k
      ensures base.entries[j].dict.Valid() && base.entries[j].dict.Repr == old(base.entries[j].dict.Repr)
      ensures base.entries[j].dict.View() == old(base.entries[j].dict.View())
    {
      assert old(base.entries[j].dict.Repr) !! old(child.Repr);
    }
  }

  /** Merge into the nested dict under `k`, and the whole is a tree again. */
  method MergeChildValid(base: PyDict, k: string, d: PyDict)
    requires base.Valid() && k in base.entries && base.entries[k].Nested?
    requires d.Valid() && d.Repr !! base.Repr
    modifies base, Under(base, k)
    ensures base.Valid() && base.entries == old(base.entries) && base.Repr == old(base.Repr) + old(d.Repr)
    ensures forall j :: j in base.entries && base.entries[j].Nested? && j != k ==>
              base.entries[j].dict.View() == old(base.entries[j].dict.View())
              && base.entries[j].dict.Repr == old(base.entries[j].dict.Repr)
    ensures base.entries[k].dict.View() == MergeSpec(old(base.entries[k].dict.View()), old(d.View()))
    decreases d.Repr, 3
  {
    var child := base.entries[k].dict;
    ghost var whole, extra, reprs := base.Repr, d.Repr, ChildReprs(base);
    assert Apart(reprs) && forall j :: j in reprs ==> reprs[j] <= whole - {base};
    MergeChild(base, k, d);
    OneChildReplaced(reprs, k, child.Repr, whole, extra);
    ghost var now := reprs[k := child.Repr];
    forall j | j in base.entries && base.entries[j].Nested?
      ensures j in now && base.entries[j].dict in base.Repr && now[j] <= base.Repr - {base}
    {
      if j == k { assert reprs[k] <= whole - {base}; }
    }
    Assemble(base, now);
  }

  /** Two dicts meet under `k`: merge them in place. */
  method MergeNested(base: PyDict, k: string, d: PyDict)
    requires base.Valid() && k in base.entries && base.entries[k].Nested?
    requires d.Valid() && d.Repr !! base.Repr
    modifies base, Under(base, k)
    ensures base.Valid() && base.entries == old(base.entries) && base.Repr == old(base.Repr) + old(d.Repr)
    ensures base.View() == old(base.View())[k := Merge(old(base.View())[k], old(Dict(d.View())))]
    ensures forall j :: j in base.entries && j != k ==> Tree(base.entries[j]) == old(Tree(base.entries[j]))
    decreases d.Repr, 4
  {
    ghost var view := base.View();
    MergeChildValid(base, k, d);
    AssembleView(base, k, view);
  }

  /** One turn of the merge loop: only the base and what it held under `k` are written. */
  method MergeKey(base: PyDict, k: string, item: Item)
    requires base.Valid() && ItemValid(item) && Tree(item) !! base.Repr
    modifies base, Under(base, k)
    ensures base.Valid() && base.Repr == old(base.Repr) + old(Tree(item)) && base.entries.Keys == old(base.entries.Keys) + {k}
    ensures base.View() == old(base.View())[k := Combine(old(Get(base.View(), k)), Some(old(ItemView(item)))).value]
    ensures forall j :: j in base.entries && j != k ==> Tree(base.entries[j]) == old(Tree(base.entries[j]))
    decreases Tree(item), 5
  {
    hide PyDict.View;
    ghost var view, value := base.View(), ItemView(item);
    if k in base.entries && base.entries[k].Nested? && item.Nested? {
      MergeNested(base, k, item.dict);
    } else {
      if k in base.entries { NestedIffDict(base, k); }
      Replace(base, k, item);
    }
  }

  function Restrict(s: Spec, keys: set<string>): Spec { map k | k in s && k in keys :: s[k] }

  lemma MergeOneMore(base: Spec, over: Spec, done: set<string>, k: string)
    requires k in over && k !in done
    ensures var so := MergeSpec(base, Restrict(over, done));
            MergeSpec(base, Restrict(over, done + {k})) == so[k := Combine(Get(so, k), Some(over[k])).value]
  {
  }

  /**
   Between two turns of the loop: the keys in `keys` are still to come, and under them the base holds
   only trees within `first`, apart from those the override will bring.
  */
  ghost predicate Pending(base: PyDict, keys: set<string>, first: set<PyDict>, coming: map<string, set<PyDict>>)
    reads base, base.Repr
  {
    && base.Valid()
    && (forall j :: j in keys && j in base.entries ==> Tree(base.entries[j]) <= first)
    && (forall j :: j in keys && j in coming ==> coming[j] !! base.Repr)
  }

  method Turn(base: PyDict, override: PyDict, k: string, ghost keys: set<string>, ghost first: set<PyDict>,
              ghost coming: map<string, set<PyDict>>)
    requires Pending(base, keys, first, coming) && override.Valid() && Under(base, k) !! override.Repr && base !in override.Repr
    requires k in keys && k in override.entries && coming == ChildReprs(override)
    modifies base, Under(base, k)
    ensures Pending(base, keys - {k}, first, coming)
    ensures base.View() == old(base.View())[k := Combine(old(Get(base.View(), k)), Some(old(override.View())[k])).value]
    ensures base.Repr <= old(base.Repr) + override.Repr
    decreases override.Repr, 0
  {
    assert Apart(coming);
    MergeKey(base, k, override.entries[k]);
  }

  /** `_deep_merge(base, override)`: writes the base's own dicts only, and may leave it sharing the override's. */
  method DeepMergeInto(base: PyDict, override: PyDict)
    requires base.Valid() && override.Valid() && base.Repr !! override.Repr
    modifies base.Repr
    ensures base.Valid() && base.View() == MergeSpec(old(base.View()), old(override.View()))
    ensures base.Repr <= old(base.Repr) + override.Repr
    decreases override.Repr, 1
  {
    hide PyDict.View;
    ghost var before, over, first, coming := base.View(), override.View(), base.Repr, ChildReprs(override);
    var keys, done := override.entries.Keys, {};
    assert MergeSpec(before, Restrict(over, {})) == before;
    while keys != {}
      invariant keys !! done && keys + done == override.entries.Keys
      invariant Pending(base, keys, first, coming) && base.Repr <= first + override.Repr
      invariant base.View() == MergeSpec(before, Restrict(over, done))
      decreases keys
    {
      var k :| k in keys;
      MergeOneMore(before, over, done, k);
      Turn(base, override, k, keys, first, coming);
      keys, done := keys - {k}, done + {k};
    }
    assert Restrict(over, done) == over;
  }

  // ------------------------------------------------------------------ copy.deepcopy

  method CopyItem(item: Item) returns (copy: Item)
    requires ItemValid(item)
    ensures ItemValid(copy) && fresh(Tree(copy)) && ItemView(copy) == ItemView(item)
    decreases Tree(item), 2
  {
    match item
    case Atom(v) => copy := Atom(v);
    case Nested(d) =>
      var c := DeepCopy(d);
      copy := Nested(c);
  }

  lemma RestrictOneMore(s: Spec, done: set<string>, k: string)
    requires k in s
    ensures Restrict(s, done + {k}) == Restrict(s, done)[k := s[k]]
  {
  }

  /** One turn of the copy. */
  method CopyKey(d: PyDict, k: string, copy: PyDict)
    requires d.Valid() && copy.Valid() && d.Repr !! copy.Repr && k in d.entries
    modifies copy
    ensures copy.Valid() && fresh(copy.Repr - old(copy.Repr))
    ensures copy.View() == old(copy.View())[k := d.View()[k]]
    decreases d.Repr, 0
  {
    hide PyDict.View;
    ViewAt(d, k);
    var item := CopyItem(d.entries[k]);
    Replace(copy, k, item);
  }

  /** A new tree, equal to the old one and sharing nothing with it. */
  method DeepCopy(d: PyDict) returns (copy: PyDict)
    requires d.Valid()
    ensures copy.Valid() && fresh(copy.Repr) && copy.View() == d.View()
    decreases d.Repr, 1
  {
    hide PyDict.View;
    ghost var view := d.View();
    copy := new PyDict();
    var keys, done := d.entries.Keys, {};
    while keys != {}
      invariant keys !! done && keys + done == d.entries.Keys
      invariant copy.Valid() && fresh(copy.Repr) && copy.View() == Restrict(view, done)
      decreases keys
    {
      var k :| k in keys;
      RestrictOneMore(view, done, k);
      CopyKey(d, k, copy);
      keys, done := keys - {k}, done + {k};
    }
    assert Restrict(view, done) == view;
  }
}
