/**
 Configs over map objects, as config/config.go keeps them: which object holds which node, and
 where deepMerge leaves everything when it writes into its first argument and takes nested maps
 of the second over without copying them.
 */
module ConfigLayout {
  import opened Prelude
  import opened ConfigTree

  datatype Value = Plain(value: Scalar) | Ref(obj: Obj)

  // A map[string]any.
  class Obj {
    var entries: map<string, Value>

    constructor ()
      ensures entries == map[]
    {
      entries := map[];
    }
  }

  // ----- which objects hold a config -----

  // A config together with the map object that holds each of its nodes.
  datatype Layout = Item(value: Scalar) | Map(obj: Obj, m: map<string, Layout>)

  ghost function Objs(l: Layout): set<Obj> {
    match l
    case Item(_) => {}
    case Map(o, m) => {o} + set k, x | k in m && x in Objs(m[k]) :: x
  }

  function ValueOf(l: Layout): Value {
    match l case Item(v) => Plain(v) case Map(o, _) => Ref(o)
  }

  // The heap holds the config in just these objects.
  ghost predicate Stored(l: Layout)
    reads Objs(l)
  {
    l.Map? ==>
      l.obj.entries.Keys == l.m.Keys && forall k | k in l.m :: l.obj.entries[k] == ValueOf(l.m[k]) && Stored(l.m[k])
  }

  // No object holds two nodes.
  ghost predicate Unshared(l: Layout) {
    l.Map? ==>
      (forall k | k in l.m :: l.obj !in Objs(l.m[k]) && Unshared(l.m[k])) &&
      (forall j, k | j in l.m && k in l.m && j != k :: Objs(l.m[j]) !! Objs(l.m[k]))
  }

  // The config alone.
  ghost function Config(l: Layout): (t: Tree)
    ensures t.Node? <==> l.Map?
  {
    match l case Item(v) => Leaf(v) case Map(_, m) => Node(map k | k in m :: Config(m[k]))
  }

  // Where deepMerge leaves everything: a node keeps its object when both sides are maps, and any
  // other value of the right side moves over with its objects.
  ghost function Merged(d: Layout, s: Layout): (r: Layout)
    requires d.Map? && s.Map?
    ensures r.Map? && r.obj == d.obj
    decreases s
  {
    Map(d.obj, map k | k in d.m.Keys + s.m.Keys ::
      if k !in s.m then d.m[k]
      else if k in d.m && d.m[k].Map? && s.m[k].Map? then Merged(d.m[k], s.m[k])
      else s.m[k])
  }

  lemma {:induction false} MergedConfig(d: Layout, s: Layout)
    requires d.Map? && s.Map?
    ensures Config(Merged(d, s)) == Merge(Config(d), Config(s))
    decreases s
  {
    forall k | k in d.m && k in s.m && d.m[k].Map? && s.m[k].Map?
      ensures Config(Merged(d.m[k], s.m[k])) == Merge(Config(d.m[k]), Config(s.m[k]))
    {
      MergedConfig(d.m[k], s.m[k]);
    }
    assert Config(Merged(d, s)).m == Merge(Config(d), Config(s)).m;
  }

  lemma Under(l: Layout, k: string)
    requires l.Map? && k in l.m
    ensures Objs(l.m[k]) <= Objs(l)
  {
  }

  lemma {:induction false} MergedObjs(d: Layout, s: Layout)
    requires d.Map? && s.Map?
    ensures Objs(Merged(d, s)) <= Objs(d) + Objs(s)
    decreases s
  {
    forall k | k in Merged(d, s).m
      ensures Objs(Merged(d, s).m[k]) <= Objs(d) + Objs(s)
    {
      if k in d.m && k in s.m && d.m[k].Map? && s.m[k].Map? {
        MergedObjs(d.m[k], s.m[k]);
      }
      assert k in d.m ==> Objs(d.m[k]) <= Objs(d);
      assert k in s.m ==> Objs(s.m[k]) <= Objs(s);
    }
  }

  // What lies under one key of the result lay under that key before.
  lemma MergedUnder(d: Layout, s: Layout, k: string)
    requires d.Map? && s.Map? && k in Merged(d, s).m
    ensures Objs(Merged(d, s).m[k]) <= (if k in d.m then Objs(d.m[k]) else {}) + (if k in s.m then Objs(s.m[k]) else {})
  {
    if k in d.m && k in s.m && d.m[k].Map? && s.m[k].Map? {
      MergedObjs(d.m[k], s.m[k]);
    }
  }
}
