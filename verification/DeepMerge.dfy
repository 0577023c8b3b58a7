/** The recursive dict merge every configuration property rests on, as a function on values. */
module DeepMerge {
  import opened Wrappers

  /** A configuration value: a dict, or anything `isinstance(v, dict)` is false of. */
  datatype Value = Leaf(text: string) | NoneLeaf | ListLeaf(items: seq<string>) | Dict(entries: map<string, Value>)

  type Spec = map<string, Value>

  /** What `_deep_merge` leaves at one path: `x` is the base's value there, `y` the override's. */
  function Merge(x: Value, y: Value): Value
    decreases y
  {
    if x.Dict? && y.Dict? then
      Dict(map k | k in x.entries.Keys + y.entries.Keys ::
        if k in x.entries && k in y.entries then Merge(x.entries[k], y.entries[k])
        else if k in y.entries then y.entries[k] else x.entries[k])
    else y
  }

  function MergeSpec(base: Spec, override: Spec): Spec { Merge(Dict(base), Dict(override)).entries }

  /** Every path of `x` is already settled by `z`, so merging `z` over `x` gives `z`. */
  predicate Covers(z: Value, x: Value)
    decreases x
  {
    x.Dict? && z.Dict? ==> forall k :: k in x.entries ==> k in z.entries && Covers(z.entries[k], x.entries[k])
  }

  lemma {:induction false} CoversIff(x: Value, z: Value)
    ensures Merge(x, z) == z <==> Covers(z, x)
    decreases x
  {
    if x.Dict? && z.Dict? {
      var r := Merge(x, z);
      forall k | k in x.entries && k in z.entries
        ensures Merge(x.entries[k], z.entries[k]) == z.entries[k] <==> Covers(z.entries[k], x.entries[k])
      {
        CoversIff(x.entries[k], z.entries[k]);
      }
      if r == z {
        forall k | k in x.entries ensures k in z.entries && Covers(z.entries[k], x.entries[k]) { assert k in r.entries; }
      }
      if Covers(z, x) {
        assert r.entries.Keys == z.entries.Keys;
        assert r.entries == z.entries;
      }
    }
  }

  /**
   No path is dict in `x`, non-dict in `y` and dict in `z`, unless `z` settles all of `x` there. This
   is read off the three arguments: no merge is computed.
  */
  predicate Compatible(x: Value, y: Value, z: Value)
    decreases x
  {
    x.Dict? && z.Dict? ==>
      if y.Dict? then
        forall k :: k in x.entries && k in y.entries && k in z.entries ==>
          Compatible(x.entries[k], y.entries[k], z.entries[k])
      else Covers(z, x)
  }

  /** The merge associates exactly on compatible arguments. */
  lemma {:induction false} AssociatesIff(x: Value, y: Value, z: Value)
    ensures Merge(Merge(x, y), z) == Merge(x, Merge(y, z)) <==> Compatible(x, y, z)
    decreases x
  {
    if x.Dict? && z.Dict? {
      if y.Dict? {
        var l, r := Merge(Merge(x, y), z), Merge(x, Merge(y, z));
        var all := x.entries.Keys + y.entries.Keys + z.entries.Keys;
        assert l.entries.Keys == all && r.entries.Keys == all;
        forall k | k in all
          ensures k in x.entries && k in y.entries && k in z.entries ==>
                    (l.entries[k] == r.entries[k] <==> Compatible(x.entries[k], y.entries[k], z.entries[k]))
          ensures !(k in x.entries && k in y.entries && k in z.entries) ==> l.entries[k] == r.entries[k]
        {
          if k in x.entries && k in y.entries && k in z.entries {
            AssociatesIff(x.entries[k], y.entries[k], z.entries[k]);
          }
        }
        assert l == r <==> forall k :: k in all ==> l.entries[k] == r.entries[k];
      } else {
        CoversIff(x, z);
      }
    }
  }

  /** Two dicts around a non-dict: the smallest input on which the merge does not associate. */
  lemma MergeDoesNotAssociate()
    ensures var x, y, z := Dict(map["a" := NoneLeaf]), NoneLeaf, Dict(map["b" := NoneLeaf]);
            Merge(Merge(x, y), z) != Merge(x, Merge(y, z))
  {
    var x, y, z := Dict(map["a" := NoneLeaf]), NoneLeaf, Dict(map["b" := NoneLeaf]);
    assert "a" in x.entries && "a" !in z.entries;
    AssociatesIff(x, y, z);
  }

  /** The empty spec is neutral on both sides. */
  lemma MergeEmpty(s: Spec)
    ensures MergeSpec(map[], s) == s && MergeSpec(s, map[]) == s
  {
  }

  function Get(s: Spec, key: string): Option<Value> { if key in s then Some(s[key]) else None }

  /** The merge at one key, absent values included. */
  function Combine(x: Option<Value>, y: Option<Value>): Option<Value> {
    if x.Some? && y.Some? then Some(Merge(x.value, y.value)) else if y.Some? then y else x
  }

  lemma GetMerge(a: Spec, b: Spec, key: string)
    ensures Get(MergeSpec(a, b), key) == Combine(Get(a, key), Get(b, key))
  {
    assert key in MergeSpec(a, b) <==> key in a || key in b;
  }

  predicate CompatibleAt(x: Option<Value>, y: Option<Value>, z: Option<Value>) {
    x.Some? && y.Some? && z.Some? ==> Compatible(x.value, y.value, z.value)
  }

  lemma CombineAssociatesIff(x: Option<Value>, y: Option<Value>, z: Option<Value>)
    ensures Combine(Combine(x, y), z) == Combine(x, Combine(y, z)) <==> CompatibleAt(x, y, z)
  {
    if x.Some? && y.Some? && z.Some? { AssociatesIff(x.value, y.value, z.value); }
  }

  // ------------------------------------------------------------------ four terms

  /**
   Whether merging `f`, `c` and `o` over `d` one by one gives the same as merging `d` under what the other
   three make together. It is read off the arguments: the only merge in it is that of the last two.
  */
  predicate AgreeUnder(d: Value, f: Option<Value>, c: Option<Value>, o: Option<Value>)
    decreases d
  {
    if o.None? then CompatibleAt(Some(d), f, c)
    else if f.None? then CompatibleAt(Some(d), c, o)
    else if c.None? then CompatibleAt(Some(d), f, o)
    else d.Dict? && o.value.Dict? ==>
      if !c.value.Dict? then Covers(o.value, d)
      else if !f.value.Dict? then Covers(Merge(c.value, o.value), d)
      else forall k :: k in d.entries ==>
             AgreeUnder(d.entries[k], Get(f.value.entries, k), Get(c.value.entries, k), Get(o.value.entries, k))
  }

  predicate AgreeAt(d: Option<Value>, f: Option<Value>, c: Option<Value>, o: Option<Value>) {
    d.Some? ==> AgreeUnder(d.value, f, c, o)
  }

  function OneByOne(d: Option<Value>, f: Option<Value>, c: Option<Value>, o: Option<Value>): Option<Value> {
    Combine(Combine(Combine(d, f), c), o)
  }

  function Underneath(d: Option<Value>, f: Option<Value>, c: Option<Value>, o: Option<Value>): Option<Value> {
    Combine(d, Combine(Combine(f, c), o))
  }

  /** The two orders give the same exactly then. */
  lemma OrdersAgreeIff(d: Option<Value>, f: Option<Value>, c: Option<Value>, o: Option<Value>)
    ensures OneByOne(d, f, c, o) == Underneath(d, f, c, o) <==> AgreeAt(d, f, c, o)
  {
    if d.Some? { OrdersAgreeUnderIff(d.value, f, c, o); }
  }

  lemma {:induction false} OrdersAgreeUnderIff(d: Value, f: Option<Value>, c: Option<Value>, o: Option<Value>)
    ensures OneByOne(Some(d), f, c, o) == Underneath(Some(d), f, c, o) <==> AgreeUnder(d, f, c, o)
    decreases d, 1
  {
    if o.None? { CombineAssociatesIff(Some(d), f, c); }
    else if f.None? { CombineAssociatesIff(Some(d), c, o); }
    else if c.None? { CombineAssociatesIff(Some(d), f, o); }
    else if d.Dict? && o.value.Dict? {
      if !c.value.Dict? { CoversIff(d, o.value); }
      else if !f.value.Dict? { CoversIff(d, Merge(c.value, o.value)); }
      else { OrdersAgreeOnDicts(d.entries, f.value.entries, c.value.entries, o.value.entries, d); }
    }
  }

  /** Four dicts: the orders agree when they do at each key. */
  lemma {:induction false} OrdersAgreeOnDicts(d: Spec, f: Spec, c: Spec, o: Spec, whole: Value)
    requires whole == Dict(d)
    ensures MergeSpec(MergeSpec(MergeSpec(d, f), c), o) == MergeSpec(d, MergeSpec(MergeSpec(f, c), o))
       <==> forall k :: k in d ==> AgreeUnder(d[k], Get(f, k), Get(c, k), Get(o, k))
    decreases whole, 0
  {
    var l, r := MergeSpec(MergeSpec(MergeSpec(d, f), c), o), MergeSpec(d, MergeSpec(MergeSpec(f, c), o));
    hide AgreeUnder;
    hide MergeSpec;
    hide OneByOne;
    hide Underneath;
    forall k: string ensures Get(l, k) == Get(r, k) <==> (k in d ==> AgreeUnder(d[k], Get(f, k), Get(c, k), Get(o, k))) {
      FourAt(d, f, c, o, k);
      if k in d {
        OrdersAgreeUnderIff(d[k], Get(f, k), Get(c, k), Get(o, k));
      } else {
        UnderNothing(Get(f, k), Get(c, k), Get(o, k));
      }
    }
    SameEverywhereIff(l, r);
  }

  lemma UnderNothing(f: Option<Value>, c: Option<Value>, o: Option<Value>)
    ensures OneByOne(None, f, c, o) == Underneath(None, f, c, o)
  {
  }

  lemma SameEverywhereIff(l: Spec, r: Spec)
    ensures l == r <==> forall k: string :: Get(l, k) == Get(r, k)
  {
    if forall k: string :: Get(l, k) == Get(r, k) {
      forall k ensures k in l <==> k in r { assert Get(l, k) == Get(r, k); }
      forall k | k in l ensures l[k] == r[k] { assert Get(l, k) == Get(r, k); }
    }
  }

  /** The two orders at one key of the dicts. */
  lemma FourAt(d: Spec, f: Spec, c: Spec, o: Spec, k: string)
    ensures Get(MergeSpec(MergeSpec(MergeSpec(d, f), c), o), k) == OneByOne(Get(d, k), Get(f, k), Get(c, k), Get(o, k))
    ensures Get(MergeSpec(d, MergeSpec(MergeSpec(f, c), o)), k) == Underneath(Get(d, k), Get(f, k), Get(c, k), Get(o, k))
  {
    GetMerge(d, f, k);
    GetMerge(MergeSpec(d, f), c, k);
    GetMerge(MergeSpec(MergeSpec(d, f), c), o, k);
    GetMerge(f, c, k);
    GetMerge(MergeSpec(f, c), o, k);
    GetMerge(d, MergeSpec(MergeSpec(f, c), o), k);
  }

  /** A non-dict in the override replaces whatever the base holds. */
  lemma OverrideWins(base: Spec, override: Spec, key: string)
    requires key in override && !override[key].Dict?
    ensures key in MergeSpec(base, override) && MergeSpec(base, override)[key] == override[key]
  {
    if key in base { assert Merge(base[key], override[key]) == override[key]; }
  }

  function Without(s: Spec, keys: set<string>): Spec { s - keys }
}
