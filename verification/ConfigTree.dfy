/**
 The layered agent config of config/config.go as values: configs are trees, deepMerge is a
 right-biased merge of trees, and a config is resolved by merging layers from the left.
 Merging is not associative when a key is a map in one layer and not in another; resolving
 the same layers again on top of their own result is stable all the same.
 */
module ConfigTree {
  import opened Prelude

  // A value that is not a map. An item of a list stands for whatever the list holds there.
  datatype Scalar = Nil | Text(text: string) | AnyList(items: seq<int>) | TextList(texts: seq<string>) | Other(id: int)

  datatype Tree = Leaf(value: Scalar) | Node(m: map<string, Tree>)

  // deepMerge on two maps.
  function Merge(d: Tree, s: Tree): Tree
    requires d.Node? && s.Node?
    decreases s
  {
    Node(map k | k in d.m.Keys + s.m.Keys ::
      if k !in s.m then d.m[k]
      else if k in d.m && d.m[k].Node? && s.m[k].Node? then Merge(d.m[k], s.m[k])
      else s.m[k])
  }

  // ----- many layers -----

  predicate Maps(ls: seq<Tree>) {
    forall i | 0 <= i < |ls| :: ls[i].Node?
  }

  // Merging the layers into d from the left.
  function Layered(d: Tree, ls: seq<Tree>): (r: Tree)
    requires d.Node? && Maps(ls)
    ensures r.Node?
    decreases |ls|
  {
    if ls == [] then d else Layered(Merge(d, ls[0]), ls[1..])
  }

  // The same, seen at one key: what a config holds there, if anything.
  type Slot = Option<Tree>

  function At(t: Tree, k: string): Slot
    requires t.Node?
  {
    if k in t.m then Some(t.m[k]) else None
  }

  predicate IsMap(x: Slot) {
    x.Some? && x.value.Node?
  }

  function Over(x: Slot, v: Slot): Slot {
    if v.None? then x else if IsMap(x) && IsMap(v) then Some(Merge(x.value, v.value)) else v
  }

  function Stack(x: Slot, vs: seq<Slot>): Slot
    decreases |vs|
  {
    if vs == [] then x else Stack(Over(x, vs[0]), vs[1..])
  }

  function Column(ls: seq<Tree>, k: string): seq<Slot>
    requires Maps(ls)
  {
    seq(|ls|, i requires 0 <= i < |ls| => At(ls[i], k))
  }

  lemma {:induction false} LayeredAt(d: Tree, ls: seq<Tree>, k: string)
    requires d.Node? && Maps(ls)
    ensures At(Layered(d, ls), k) == Stack(At(d, k), Column(ls, k))
    decreases |ls|
  {
    if ls != [] {
      LayeredAt(Merge(d, ls[0]), ls[1..], k);
      assert Column(ls, k)[1..] == Column(ls[1..], k);
      assert At(Merge(d, ls[0]), k) == Over(At(d, k), At(ls[0], k));
    }
  }

  // How deep a tree may be.
  predicate Within(t: Tree, h: nat) {
    t.Leaf? || (h > 0 && forall k | k in t.m :: Within(t.m[k], h - 1))
  }

  lemma {:induction false} WithinMore(t: Tree, h: nat, g: nat)
    requires Within(t, h) && h <= g
    ensures Within(t, g)
  {
    if t.Node? {
      forall k | k in t.m
        ensures Within(t.m[k], g - 1)
      {
        WithinMore(t.m[k], h - 1, g - 1);
      }
    }
  }

  lemma {:induction false} SomeHeight(t: Tree) returns (h: nat)
    ensures Within(t, h)
    decreases t
  {
    if t.Leaf? {
      h := 0;
    } else {
      var rest, g := t.m.Keys, 0;
      while rest != {}
        invariant rest <= t.m.Keys
        invariant forall k | k in t.m && k !in rest :: Within(t.m[k], g)
      {
        var k :| k in rest;
        var h' := SomeHeight(t.m[k]);
        var g' := if h' > g then h' else g;
        forall j | j in t.m && j !in rest - {k}
          ensures Within(t.m[j], g')
        {
          if j == k {
            WithinMore(t.m[j], h', g');
          } else {
            WithinMore(t.m[j], g, g');
          }
        }
        g := g';
        rest := rest - {k};
      }
      h := g + 1;
    }
  }

  // A layer with a plain value forgets everything below it.
  lemma {:induction false} PlainValueResets(x: Slot, y: Slot, vs: seq<Slot>, i: nat)
    requires i < |vs| && vs[i].Some? && vs[i].value.Leaf?
    ensures Stack(x, vs) == Stack(y, vs)
    decreases |vs|
  {
    if i > 0 {
      PlainValueResets(Over(x, vs[0]), Over(y, vs[0]), vs[1..], i - 1);
    }
  }

  predicate MapsOnly(vs: seq<Slot>) {
    forall i | 0 <= i < |vs| && vs[i].Some? :: vs[i].value.Node?
  }

  function Nodes(vs: seq<Slot>): (ns: seq<Tree>)
    requires MapsOnly(vs)
    ensures Maps(ns)
    ensures forall n | n in ns :: Some(n) in vs
    decreases |vs|
  {
    if vs == [] then [] else (if vs[0].Some? then [vs[0].value] else []) + Nodes(vs[1..])
  }

  lemma MergeIntoEmpty(t: Tree)
    requires t.Node?
    ensures Merge(Node(map[]), t) == t
  {
    assert Merge(Node(map[]), t).m == t.m;
  }

  // Over layers that hold maps or nothing, what was there counts only if it was a map.
  lemma {:induction false} StackOfMaps(x: Slot, vs: seq<Slot>)
    requires MapsOnly(vs)
    ensures Stack(x, vs) == if Nodes(vs) == [] then x
                            else Some(Layered(if IsMap(x) then x.value else Node(map[]), Nodes(vs)))
    decreases |vs|
  {
    if vs != [] {
      StackOfMaps(Over(x, vs[0]), vs[1..]);
      if vs[0].Some? {
        MergeIntoEmpty(vs[0].value);
        assert Nodes(vs)[0] == vs[0].value && Nodes(vs)[1..] == Nodes(vs[1..]);
      } else {
        assert Nodes(vs) == Nodes(vs[1..]);
      }
    }
  }

  lemma {:induction false} StableSlot(x: Slot, vs: seq<Slot>, h: nat)
    requires forall i | 0 <= i < |vs| && vs[i].Some? :: Within(vs[i].value, h)
    ensures Stack(Stack(x, vs), vs) == Stack(x, vs)
    decreases h, 1
  {
    if i: nat :| i < |vs| && vs[i].Some? && vs[i].value.Leaf? {
      PlainValueResets(Stack(x, vs), x, vs, i);
    } else {
      assert MapsOnly(vs);
      var ns := Nodes(vs);
      var start := if IsMap(x) then x.value else Node(map[]);
      StackOfMaps(x, vs);
      StackOfMaps(Stack(x, vs), vs);
      forall i | 0 <= i < |ns|
        ensures Within(ns[i], h)
      {
        assert Some(ns[i]) in vs;
      }
      StableTree(start, ns, h);
    }
  }

  lemma {:induction false} StableTree(d: Tree, ls: seq<Tree>, h: nat)
    requires d.Node? && Maps(ls) && forall i | 0 <= i < |ls| :: Within(ls[i], h)
    ensures Layered(Layered(d, ls), ls) == Layered(d, ls)
    decreases h, 0
  {
    if ls != [] {
      var once := Layered(d, ls);
      forall k: string
        ensures At(Layered(once, ls), k) == At(once, k)
      {
        LayeredAt(d, ls, k);
        LayeredAt(once, ls, k);
        assert Within(ls[0], h);
        StableSlot(At(d, k), Column(ls, k), h - 1);
      }
      SameEverywhere(Layered(once, ls), once);
    }
  }

  lemma SameEverywhere(s: Tree, t: Tree)
    requires s.Node? && t.Node? && forall k :: At(s, k) == At(t, k)
    ensures s == t
  {
    forall k
      ensures k in s.m <==> k in t.m
      ensures k in s.m ==> s.m[k] == t.m[k]
    {
      assert At(s, k) == At(t, k);
    }
    assert s.m == t.m;
  }

  // Any number of layers, any mix of maps and plain values at any key: merging the same layers
  // onto their own result changes nothing.
  lemma {:induction false} LayersStable(d: Tree, ls: seq<Tree>)
    requires d.Node? && Maps(ls)
    ensures Layered(Layered(d, ls), ls) == Layered(d, ls)
  {
    var i, h: nat := 0, 0;
    while i < |ls|
      invariant i <= |ls| && forall j | 0 <= j < i :: Within(ls[j], h)
    {
      var g := SomeHeight(ls[i]);
      var top := if g > h then g else h;
      forall j | 0 <= j <= i
        ensures Within(ls[j], top)
      {
        WithinMore(ls[j], if j < i then h else g, top);
      }
      i, h := i + 1, top;
    }
    StableTree(d, ls, h);
  }

  // ----- what other layers leave of a different start -----

  predicate SomePlain(vs: seq<Slot>) {
    exists i :: 0 <= i < |vs| && vs[i].Some? && vs[i].value.Leaf?
  }

  // What the layers make of t is what they make of nothing: each key of t meets a plain value in
  // some layer, or maps only, which then do so below.
  predicate Lost(t: Tree, ls: seq<Tree>)
    requires t.Node? && Maps(ls)
    decreases t
  {
    forall k | k in t.m ::
      var vs := Column(ls, k);
      SomePlain(vs) || (MapsOnly(vs) && Nodes(vs) != [] && (t.m[k].Node? ==> Lost(t.m[k], Nodes(vs))))
  }

  lemma {:induction false} LostIffSame(t: Tree, ls: seq<Tree>)
    requires t.Node? && Maps(ls)
    ensures Lost(t, ls) <==> Layered(t, ls) == Layered(Node(map[]), ls)
    decreases t
  {
    forall k: string
      ensures At(Layered(t, ls), k) == At(Layered(Node(map[]), ls), k) <==>
        (k in t.m ==> var vs := Column(ls, k);
          SomePlain(vs) || (MapsOnly(vs) && Nodes(vs) != [] && (t.m[k].Node? ==> Lost(t.m[k], Nodes(vs)))))
    {
      var vs := Column(ls, k);
      LayeredAt(t, ls, k);
      LayeredAt(Node(map[]), ls, k);
      SlotsMeet(At(t, k), None, vs);
      if k in t.m && t.m[k].Node? && MapsOnly(vs) {
        LostIffSame(t.m[k], Nodes(vs));
      }
    }
    if Lost(t, ls) {
      SameEverywhere(Layered(t, ls), Layered(Node(map[]), ls));
    }
  }

  function Start(x: Slot): (t: Tree)
    ensures t.Node?
  {
    if IsMap(x) then x.value else Node(map[])
  }

  // Two starts under one key end alike if they are alike, if a layer holds a plain value there, or
  // if layers hold maps that end alike on what maps there were.
  lemma SlotsMeet(x: Slot, y: Slot, vs: seq<Slot>)
    ensures Stack(x, vs) == Stack(y, vs) <==>
      x == y || SomePlain(vs) ||
      (MapsOnly(vs) && Nodes(vs) != [] && Layered(Start(x), Nodes(vs)) == Layered(Start(y), Nodes(vs)))
  {
    if i: nat :| i < |vs| && vs[i].Some? && vs[i].value.Leaf? {
      PlainValueResets(x, y, vs, i);
    } else {
      assert MapsOnly(vs);
      StackOfMaps(x, vs);
      StackOfMaps(y, vs);
    }
  }

  // The layers leave nothing of what tells x and y apart.
  predicate Forgotten(x: Tree, y: Tree, ls: seq<Tree>)
    requires x.Node? && y.Node? && Maps(ls)
    decreases x
  {
    forall k | k in x.m.Keys + y.m.Keys ::
      var vs := Column(ls, k);
      At(x, k) == At(y, k) || SomePlain(vs) || (MapsOnly(vs) && Nodes(vs) != [] && BelowForgotten(x, y, k, Nodes(vs)))
  }

  predicate BelowForgotten(x: Tree, y: Tree, k: string, ns: seq<Tree>)
    requires x.Node? && y.Node? && Maps(ns)
    decreases x, 0
  {
    if IsMap(At(x, k)) && IsMap(At(y, k)) then Forgotten(x.m[k], y.m[k], ns)
    else Lost(Start(At(x, k)), ns) && Lost(Start(At(y, k)), ns)
  }

  lemma {:induction false} ForgottenIffSame(x: Tree, y: Tree, ls: seq<Tree>)
    requires x.Node? && y.Node? && Maps(ls)
    ensures Forgotten(x, y, ls) <==> Layered(x, ls) == Layered(y, ls)
    decreases x
  {
    forall k: string
      ensures At(Layered(x, ls), k) == At(Layered(y, ls), k) <==>
        (k in x.m.Keys + y.m.Keys ==> var vs := Column(ls, k);
          At(x, k) == At(y, k) || SomePlain(vs) ||
          (MapsOnly(vs) && Nodes(vs) != [] && BelowForgotten(x, y, k, Nodes(vs))))
    {
      var vs := Column(ls, k);
      LayeredAt(x, ls, k);
      LayeredAt(y, ls, k);
      SlotsMeet(At(x, k), At(y, k), vs);
      if MapsOnly(vs) {
        if IsMap(At(x, k)) && IsMap(At(y, k)) {
          ForgottenIffSame(x.m[k], y.m[k], Nodes(vs));
        } else {
          LostIffSame(Start(At(x, k)), Nodes(vs));
          LostIffSame(Start(At(y, k)), Nodes(vs));
        }
      }
    }
    if Forgotten(x, y, ls) {
      SameEverywhere(Layered(x, ls), Layered(y, ls));
    }
  }

  // ----- grouping -----

  // Every key of a is a key of c, and of the maps below where both hold one.
  predicate Covered(a: Tree, c: Tree)
    requires a.Node? && c.Node?
    decreases a
  {
    forall k | k in a.m :: k in c.m && (a.m[k].Node? && c.m[k].Node? ==> Covered(a.m[k], c.m[k]))
  }

  lemma {:induction false} CoveredAddsNothing(a: Tree, c: Tree)
    requires a.Node? && c.Node?
    ensures Merge(a, c) == c <==> Covered(a, c)
    decreases a
  {
    var r := Merge(a, c);
    forall k | k in a.m && k in c.m && a.m[k].Node? && c.m[k].Node?
      ensures r.m[k] == c.m[k] <==> Covered(a.m[k], c.m[k])
    {
      CoveredAddsNothing(a.m[k], c.m[k]);
    }
    assert forall k | k in a.m :: k in r.m;
    if Covered(a, c) {
      assert r.m == c.m;
    }
  }

  // Where a and c hold maps, b holds a map too or c leaves nothing of a's.
  predicate Grouped(a: Tree, b: Tree, c: Tree)
    requires a.Node? && b.Node? && c.Node?
    decreases a
  {
    forall k | k in a.m && k in b.m && k in c.m && a.m[k].Node? && c.m[k].Node? ::
      if b.m[k].Node? then Grouped(a.m[k], b.m[k], c.m[k]) else Covered(a.m[k], c.m[k])
  }

  // The order in which three layers are merged matters only where a plain value stands between
  // two maps, and there unless the last map covers the first.
  lemma {:induction false} AssociativeIffGrouped(a: Tree, b: Tree, c: Tree)
    requires a.Node? && b.Node? && c.Node?
    ensures Merge(Merge(a, b), c) == Merge(a, Merge(b, c)) <==> Grouped(a, b, c)
    decreases a
  {
    var left, right := Merge(Merge(a, b), c), Merge(a, Merge(b, c));
    forall k: string
      ensures k in left.m <==> k in right.m
      ensures k in left.m ==> (left.m[k] == right.m[k] <==>
        (k in a.m && k in b.m && k in c.m && a.m[k].Node? && c.m[k].Node? ==>
          if b.m[k].Node? then Grouped(a.m[k], b.m[k], c.m[k]) else Covered(a.m[k], c.m[k])))
    {
      if k in a.m && k in b.m && k in c.m && a.m[k].Node? && c.m[k].Node? {
        if b.m[k].Node? {
          AssociativeIffGrouped(a.m[k], b.m[k], c.m[k]);
        } else {
          CoveredAddsNothing(a.m[k], c.m[k]);
        }
      }
    }
    if Grouped(a, b, c) {
      assert left.m == right.m;
    }
  }

  // ----- MergeAgentConfig -----

  // cleanNil: the values that say nothing do not reach the merge.
  predicate Says(t: Tree) {
    !(t.Leaf? && (t.value.Nil? || t.value == Text("") || t.value == AnyList([]) || t.value == TextList([])))
  }

  function Clean(t: Tree): Tree
    requires t.Node?
  {
    Node(map k | k in t.m && Says(t.m[k]) :: t.m[k])
  }

  predicate IsConfig(x: Slot) {
    x.Some? ==> x.value.Node?
  }

  // The layers above the defaults; an absent layer (nil) is none.
  function Layers(server: Slot, user: Slot, agent: Tree, workspace: string): (ls: seq<Tree>)
    requires IsConfig(server) && IsConfig(user) && agent.Node?
    ensures Maps(ls)
  {
    (if server.Some? then [server.value] else []) +
    (if workspace == "" && user.Some? then [Clean(user.value)] else []) +
    [Clean(agent)]
  }

  function AgentConfig(defaults: Slot, server: Slot, user: Slot, agent: Slot, workspace: string): (r: Slot)
    requires IsConfig(defaults) && IsConfig(server) && IsConfig(user) && IsConfig(agent)
    ensures IsConfig(r)
  {
    if agent.None? then None
    else
      var base := if defaults.Some? then defaults.value else Node(map[]);
      Some(Layered(base, Layers(server, user, agent.value, workspace)))
  }

  // defaults, then server, then the cleaned user layer, then the cleaned agent layer.
  lemma InOrder(defaults: Slot, server: Slot, user: Slot, agent: Tree, workspace: string)
    requires IsConfig(defaults) && IsConfig(server) && IsConfig(user) && agent.Node?
    ensures var base := if defaults.Some? then defaults.value else Node(map[]);
      var served := if server.Some? then Merge(base, server.value) else base;
      var personal := if workspace == "" && user.Some? then Merge(served, Clean(user.value)) else served;
      AgentConfig(defaults, server, user, Some(agent), workspace) == Some(Merge(personal, Clean(agent)))
  {
    var base := if defaults.Some? then defaults.value else Node(map[]);
    var s := if server.Some? then [server.value] else [];
    var u := if workspace == "" && user.Some? then [Clean(user.value)] else [];
    LayeredConcat(base, s, u + [Clean(agent)]);
    LayeredConcat(Layered(base, s), u, [Clean(agent)]);
    assert s + u + [Clean(agent)] == s + (u + [Clean(agent)]);
    assert forall t: Tree | t.Node? :: [t][1..] == [];
  }

  lemma {:induction false} LayeredConcat(d: Tree, a: seq<Tree>, b: seq<Tree>)
    requires d.Node? && Maps(a) && Maps(b)
    ensures Layered(d, a + b) == Layered(Layered(d, a), b)
    decreases |a|
  {
    if a == [] {
      assert a + b == b;
    } else {
      LayeredConcat(Merge(d, a[0]), a[1..], b);
      assert (a + b)[1..] == a[1..] + b;
    }
  }

  // Resolving again with the defaults overwritten by the first result, as the code leaves them.
  lemma ResolvingAgain(defaults: Slot, server: Slot, user: Slot, agent: Slot, workspace: string)
    requires IsConfig(defaults) && IsConfig(server) && IsConfig(user) && IsConfig(agent) && agent.Some?
    ensures AgentConfig(AgentConfig(defaults, server, user, agent, workspace), server, user, agent, workspace)
         == AgentConfig(defaults, server, user, agent, workspace)
  {
    LayersStable(if defaults.Some? then defaults.value else Node(map[]), Layers(server, user, agent.value, workspace));
  }

  // The next agent, with other layers, gets what it would get of fresh defaults exactly when its
  // layers leave nothing of what the first agent's made of the defaults.
  lemma NextAgent(defaults: Slot, first: seq<Tree>, server: Slot, user: Slot, agent: Slot, workspace: string)
    requires IsConfig(defaults) && Maps(first) && IsConfig(server) && IsConfig(user) && IsConfig(agent) && agent.Some?
    ensures var base := Start(defaults);
      AgentConfig(Some(Layered(base, first)), server, user, agent, workspace)
        == AgentConfig(defaults, server, user, agent, workspace)
      <==> Forgotten(Layered(base, first), base, Layers(server, user, agent.value, workspace))
  {
    ForgottenIffSame(Layered(Start(defaults), first), Start(defaults), Layers(server, user, agent.value, workspace));
  }
}
