/**
 Calling MergeAgentConfig again with the very objects of a first call, which by then share maps:
 when does the second call give the same config?
 */
module ConfigSharing {
  import opened Prelude
  import opened ConfigTree
  import opened ConfigLayout

  // What deepMerge(d, s) makes of another config l that shares objects with d, path by path: an
  // object of both is written, any other stays as it is.
  ghost function Upd(l: Layout, d: Layout, s: Layout): (r: Layout)
    requires l.Map? && d.Map? && s.Map?
    ensures r.Map? && r.obj == l.obj
    decreases s
  {
    if l == d then Merged(d, s)
    else Map(l.obj, map k | k in l.m ::
      if k in d.m && k in s.m && l.m[k].Map? && d.m[k].Map? && s.m[k].Map? then Upd(l.m[k], d.m[k], s.m[k])
      else l.m[k])
  }

  lemma {:induction false} MergedSelf(d: Layout)
    requires d.Map?
    ensures Merged(d, d) == d
    decreases d
  {
    forall k | k in d.m && d.m[k].Map?
      ensures Merged(d.m[k], d.m[k]) == d.m[k]
    {
      MergedSelf(d.m[k]);
    }
    assert Merged(d, d).m == d.m;
  }

  lemma {:induction false} UpdSelf(l: Layout, d: Layout)
    requires l.Map? && d.Map?
    ensures Upd(l, d, d) == l
    decreases d
  {
    if l == d {
      MergedSelf(d);
    } else {
      forall k | k in l.m && k in d.m && l.m[k].Map? && d.m[k].Map?
        ensures Upd(l.m[k], d.m[k], d.m[k]) == l.m[k]
      {
        UpdSelf(l.m[k], d.m[k]);
      }
      assert Upd(l, d, d).m == l.m;
    }
  }

  // The config that is merged stays as it is, whatever it shares.
  lemma {:induction false} UpdOwn(d: Layout, s: Layout)
    requires d.Map? && s.Map?
    ensures Upd(s, d, s) == s
    decreases s
  {
    if s == d {
      MergedSelf(d);
    } else {
      forall k | k in s.m && k in d.m && s.m[k].Map? && d.m[k].Map?
        ensures Upd(s.m[k], d.m[k], s.m[k]) == s.m[k]
      {
        UpdOwn(d.m[k], s.m[k]);
      }
      assert Upd(s, d, s).m == s.m;
    }
  }

  lemma {:induction false} UpdApart(l: Layout, d: Layout, s: Layout)
    requires l.Map? && d.Map? && s.Map? && Objs(l) !! Objs(d)
    ensures Upd(l, d, s) == l
    decreases s
  {
    assert l.obj in Objs(l) && d.obj in Objs(d);
    forall k | k in l.m && k in d.m && k in s.m && l.m[k].Map? && d.m[k].Map? && s.m[k].Map?
      ensures Upd(l.m[k], d.m[k], s.m[k]) == l.m[k]
    {
      Under(l, k);
      Under(d, k);
      UpdApart(l.m[k], d.m[k], s.m[k]);
    }
    assert Upd(l, d, s).m == l.m;
  }

  lemma MergedEmpty(d: Layout, s: Layout)
    requires d.Map? && s.Map? && s.m == map[]
    ensures Merged(d, s) == d
    ensures forall l: Layout | l.Map? :: Upd(l, d, s) == l
  {
    assert Merged(d, s).m == d.m;
    forall l: Layout | l.Map?
      ensures Upd(l, d, s) == l
    {
      assert Upd(l, d, s).m == l.m;
    }
  }

  // ----- one call -----

  // The result so far and the three layers, cleaned where they are to be.
  datatype World = World(r: Layout, s: Layout, u: Layout, a: Layout)

  ghost predicate Maps4(w: World) {
    w.r.Map? && w.s.Map? && w.u.Map? && w.a.Map? && w.r.obj !in {w.s.obj, w.u.obj, w.a.obj}
  }

  ghost function Absorb(w: World, src: Layout): (v: World)
    requires Maps4(w) && src.Map?
    ensures Maps4(v)
  {
    World(Merged(w.r, src), Upd(w.s, w.r, src), Upd(w.u, w.r, src), Upd(w.a, w.r, src))
  }

  ghost function Pass(w: World): (v: World)
    requires Maps4(w)
    ensures Maps4(v)
  {
    var w1 := Absorb(w, w.s);
    var w2 := Absorb(w1, w1.u);
    Absorb(w2, w2.a)
  }

  // ----- the same, under one key -----

  type Cell = Option<Layout>

  ghost predicate IsNode(x: Cell) {
    x.Some? && x.value.Map?
  }

  ghost predicate IsItem(x: Cell) {
    x.Some? && x.value.Item?
  }

  ghost function Look(l: Layout, k: string): Cell
    requires l.Map?
  {
    if k in l.m then Some(l.m[k]) else None
  }

  ghost function Onto(x: Cell, y: Cell): Cell {
    if y.None? then x else if IsNode(x) && IsNode(y) then Some(Merged(x.value, y.value)) else y
  }

  ghost function UpdCell(l: Cell, x: Cell, y: Cell): Cell {
    if IsNode(l) && IsNode(x) && IsNode(y) then Some(Upd(l.value, x.value, y.value)) else l
  }

  datatype Cells = Cells(r: Cell, s: Cell, u: Cell, a: Cell)

  ghost function AbsorbCell(c: Cells, y: Cell): Cells {
    Cells(Onto(c.r, y), UpdCell(c.s, c.r, y), UpdCell(c.u, c.r, y), UpdCell(c.a, c.r, y))
  }

  ghost function PassCells(c: Cells): Cells {
    var c1 := AbsorbCell(c, c.s);
    var c2 := AbsorbCell(c1, c1.u);
    AbsorbCell(c2, c2.a)
  }

  ghost function Under4(w: World, k: string): Cells
    requires Maps4(w)
  {
    Cells(Look(w.r, k), Look(w.s, k), Look(w.u, k), Look(w.a, k))
  }

  lemma AbsorbAt(w: World, src: Layout, k: string)
    requires Maps4(w) && src.Map?
    ensures Under4(Absorb(w, src), k) == AbsorbCell(Under4(w, k), Look(src, k))
  {
  }

  lemma PassAt(w: World, k: string)
    requires Maps4(w)
    ensures Under4(Pass(w), k) == PassCells(Under4(w, k))
  {
    hide Absorb, AbsorbCell;
    var w1 := Absorb(w, w.s);
    var w2 := Absorb(w1, w1.u);
    AbsorbAt(w, w.s, k);
    AbsorbAt(w1, w1.u, k);
    AbsorbAt(w2, w2.a, k);
  }

  // Cells that hold maps or nothing, below a map: nothing is as good as an empty map.
  ghost predicate Lifts(c: Cell, l: Layout) {
    l.Map? && (c == Some(l) || (c.None? && l.m == map[]))
  }

  ghost predicate LiftsAll(c: Cells, w: World) {
    Maps4(w) && c.r == Some(w.r) && Lifts(c.s, w.s) && Lifts(c.u, w.u) && Lifts(c.a, w.a)
  }

  lemma LiftUpd(c: Cell, l: Layout, r: Layout, y: Cell, src: Layout)
    requires Lifts(c, l) && r.Map? && l.obj != r.obj && Lifts(y, src)
    ensures Lifts(UpdCell(c, Some(r), y), Upd(l, r, src))
  {
    if y.None? {
      MergedEmpty(r, src);
    }
  }

  lemma LiftAbsorb(c: Cells, w: World, y: Cell, src: Layout)
    requires LiftsAll(c, w) && Lifts(y, src)
    ensures LiftsAll(AbsorbCell(c, y), Absorb(w, src))
  {
    hide Merged, Upd;
    if y.None? {
      MergedEmpty(w.r, src);
    }
    LiftUpd(c.s, w.s, w.r, y, src);
    LiftUpd(c.u, w.u, w.r, y, src);
    LiftUpd(c.a, w.a, w.r, y, src);
  }

  lemma LiftPass(c: Cells, w: World)
    requires LiftsAll(c, w)
    ensures LiftsAll(PassCells(c), Pass(w))
  {
    hide Absorb, AbsorbCell, Lifts;
    assert Lifts(c.s, w.s);
    LiftAbsorb(c, w, c.s, w.s);
    var c1, w1 := AbsorbCell(c, c.s), Absorb(w, w.s);
    LiftAbsorb(c1, w1, c1.u, w1.u);
    var c2, w2 := AbsorbCell(c1, c1.u), Absorb(w1, w1.u);
    LiftAbsorb(c2, w2, c2.a, w2.a);
  }

  // ----- the same layers once more -----

  // t says nothing that c does not say already.
  predicate Repeats(c: Tree, t: Tree)
    requires c.Node? && t.Node?
    decreases t
  {
    forall k | k in t.m ::
      k in c.m && if c.m[k].Node? && t.m[k].Node? then Repeats(c.m[k], t.m[k]) else c.m[k] == t.m[k]
  }

  lemma {:induction false} RepeatsAddsNothing(c: Tree, t: Tree)
    requires c.Node? && t.Node?
    ensures Merge(c, t) == c <==> Repeats(c, t)
    decreases t
  {
    var r := Merge(c, t);
    forall k | k in t.m && k in c.m && c.m[k].Node? && t.m[k].Node?
      ensures r.m[k] == c.m[k] <==> Repeats(c.m[k], t.m[k])
    {
      RepeatsAddsNothing(c.m[k], t.m[k]);
    }
    assert forall k | k in t.m :: k in r.m;
    if Repeats(c, t) {
      assert r.m == c.m;
    }
  }

  lemma MergeTwice(c: Tree, t: Tree)
    requires c.Node? && t.Node?
    ensures Merge(Merge(c, t), t) == Merge(c, t)
  {
    LayersStable(c, [t]);
    assert [t][1..] == [];
  }

  // Where the user's layer has a plain value between maps of the server's and the agent's, the
  // server's map says nothing that the agent's does not.
  predicate Undisturbed(d: Tree, s: Tree, u: Tree, a: Tree)
    requires d.Node? && s.Node? && u.Node? && a.Node?
    decreases s
  {
    forall k | k in s.m && k in u.m && k in a.m && s.m[k].Node? && a.m[k].Node? ::
      if u.m[k].Leaf? then Repeats(a.m[k], s.m[k])
      else k in d.m && d.m[k].Node? ==> Undisturbed(d.m[k], s.m[k], u.m[k], a.m[k])
  }

  ghost predicate Distinct4(w: World) {
    && w.r.Map? && w.s.Map? && w.u.Map? && w.a.Map?
    && Objs(w.r) !! Objs(w.s) && Objs(w.r) !! Objs(w.u) && Objs(w.r) !! Objs(w.a)
    && (w.s.m != map[] ==> Objs(w.s) !! Objs(w.u) && Objs(w.s) !! Objs(w.a))
  }

  ghost predicate Low(w: World, h: nat) {
    Within(Config(w.r), h) && Within(Config(w.s), h) && Within(Config(w.u), h) && Within(Config(w.a), h)
  }

  lemma RootsDiffer(w: World)
    requires Distinct4(w)
    ensures Maps4(w)
  {
    assert w.r.obj in Objs(w.r) && w.s.obj in Objs(w.s) && w.u.obj in Objs(w.u) && w.a.obj in Objs(w.a);
  }

  ghost function Shown(x: Cell): Slot {
    if x.Some? then Some(Config(x.value)) else None
  }

  ghost predicate Same(c: Cells) {
    Shown(PassCells(PassCells(c)).r) == Shown(PassCells(c).r)
  }

  // The cells of a key, with an empty map for each that holds nothing.
  ghost function Filled(c: Cell, o: Obj): (l: Layout)
    requires !IsItem(c)
    ensures l.Map?
  {
    if c.Some? then c.value else Map(o, map[])
  }

  ghost predicate Stable(w: World) {
    Maps4(w) && Config(Pass(Pass(w)).r) == Config(Pass(w).r)
  }

  lemma SameIfLifted(c: Cells, w: World)
    requires LiftsAll(c, w)
    ensures Same(c) <==> Stable(w)
  {
    hide PassCells, Pass;
    LiftPass(c, w);
    LiftPass(PassCells(c), Pass(w));
  }

  // ----- one key, case by case -----

  // A plain value of the last layer that has any decides.
  lemma PlainDecides(c: Cells)
    requires IsItem(c.a) || (c.a.None? && (IsItem(c.u) || (!IsNode(c.u) && IsItem(c.s))))
    ensures Same(c)
  {
    hide Merged, Upd;
  }

  // A plain value of the server's makes room for the map of a later layer.
  lemma PlainBelow(c: Cells)
    requires IsItem(c.s) && !IsItem(c.u) && !IsItem(c.a) && (IsNode(c.u) || IsNode(c.a))
    ensures Same(c)
  {
    if IsNode(c.u) && IsNode(c.a) {
      UserThenAgent(c.u.value, c.a.value);
    }
    hide Merged, Upd;
  }

  // The agent's map merged into the user's, and again.
  lemma UserThenAgent(u: Layout, a: Layout)
    requires u.Map? && a.Map?
    ensures Config(Merged(Merged(u, a), a)) == Config(Merged(u, a))
    ensures Upd(u, u, a) == Merged(u, a) && Upd(a, u, a) == a && Merged(Merged(u, a), Merged(u, a)) == Merged(u, a)
    ensures Upd(a, Merged(u, a), Merged(u, a)) == a && Upd(a, Merged(u, a), a) == a
  {
    MergedConfig(u, a);
    MergedConfig(Merged(u, a), a);
    MergeTwice(Config(u), Config(a));
    UpdOwn(u, a);
    UpdOwn(Merged(u, a), a);
    MergedSelf(Merged(u, a));
    UpdSelf(a, Merged(u, a));
  }

  // A plain value of the user's between two maps: the second call finds the agent's map as the
  // result and merges the server's into it.
  lemma BetweenMaps(c: Cells)
    requires IsItem(c.u) && IsNode(c.a) && IsNode(c.s)
    requires IsNode(c.r) ==> Objs(c.r.value) !! Objs(c.a.value)
    ensures PassCells(c) == Cells(c.a, c.s, c.u, c.a)
    ensures var x := Some(Merged(c.a.value, c.s.value)); PassCells(PassCells(c)) == Cells(x, c.s, c.u, x)
  {
    var s, a := c.s.value, c.a.value;
    if IsNode(c.r) {
      UpdApart(a, c.r.value, s);
      UpdOwn(c.r.value, s);
    }
    UpdOwn(a, s);
    assert Upd(a, a, s) == Merged(a, s);
    MergedSelf(Merged(a, s));
    hide Merged, Upd;
    assert PassCells(c) == Cells(c.a, c.s, c.u, c.a);
  }

  lemma PlainBetween(c: Cells)
    requires IsItem(c.u) && IsNode(c.a)
    requires IsNode(c.r) && IsNode(c.s) ==> Objs(c.r.value) !! Objs(c.a.value)
    ensures Same(c) <==> IsNode(c.s) ==> Repeats(Config(c.a.value), Config(c.s.value))
  {
    if IsNode(c.s) {
      BetweenMaps(c);
      MergedConfig(c.a.value, c.s.value);
      RepeatsAddsNothing(Config(c.a.value), Config(c.s.value));
      hide PassCells;
    }
    hide Merged, Upd;
  }

  // Without a map or a plain value below, the first map of the layers becomes the result.
  lemma UserFirst(c: Cells)
    requires !IsNode(c.r) && c.s.None? && !IsItem(c.u) && !IsItem(c.a)
    ensures Same(c)
  {
    if IsNode(c.u) && IsNode(c.a) {
      UserThenAgent(c.u.value, c.a.value);
    } else if IsNode(c.u) {
      MergedSelf(c.u.value);
    } else if IsNode(c.a) {
      MergedSelf(c.a.value);
    }
    hide Merged, Upd;
  }

  ghost function WithoutServer(c: Cells): Cells {
    Cells(c.s, None, c.u, c.a)
  }

  // If it is the server's, the server's layer has no say in what follows.
  lemma ServerFirst(c: Cells)
    requires !IsNode(c.r) && IsNode(c.s) && !IsItem(c.u) && !IsItem(c.a)
    ensures Same(c) <==> Same(WithoutServer(c))
  {
    var q := PassCells(WithoutServer(c));
    ServerShares(c);
    assert PassCells(c) == Cells(q.r, q.r, q.u, q.a) && IsNode(q.r);
    MergedSelf(q.r.value);
    forall l: Layout | l.Map?
      ensures Upd(l, q.r.value, q.r.value) == l
    {
      UpdSelf(l, q.r.value);
    }
    hide Merged, Upd;
    assert AbsorbCell(PassCells(c), q.r) == PassCells(c);
  }

  lemma ServerShares(c: Cells)
    requires !IsNode(c.r) && IsNode(c.s) && !IsItem(c.u) && !IsItem(c.a)
    ensures var q := PassCells(WithoutServer(c));
      PassCells(c) == Cells(q.r, q.r, q.u, q.a) && IsNode(q.r) && !IsItem(q.u) && !IsItem(q.a) && q.s.None?
  {
    hide Merged;
  }

  // ----- all keys -----

  predicate CalmAt(d: Slot, s: Slot, u: Slot, a: Slot) {
    IsMap(s) && IsMap(a) && u.Some? ==>
      if u.value.Leaf? then Repeats(a.value, s.value)
      else IsMap(d) ==> Undisturbed(d.value, s.value, u.value, a.value)
  }

  lemma CalmEverywhere(d: Tree, s: Tree, u: Tree, a: Tree)
    requires d.Node? && s.Node? && u.Node? && a.Node?
    ensures Undisturbed(d, s, u, a) <==> forall k :: CalmAt(At(d, k), At(s, k), At(u, k), At(a, k))
  {
    if Undisturbed(d, s, u, a) {
      forall k
        ensures CalmAt(At(d, k), At(s, k), At(u, k), At(a, k))
      {
      }
    }
    if forall k :: CalmAt(At(d, k), At(s, k), At(u, k), At(a, k)) {
      forall k | k in s.m && k in u.m && k in a.m && s.m[k].Node? && a.m[k].Node?
        ensures if u.m[k].Leaf? then Repeats(a.m[k], s.m[k])
                else k in d.m && d.m[k].Node? ==> Undisturbed(d.m[k], s.m[k], u.m[k], a.m[k])
      {
        assert CalmAt(At(d, k), At(s, k), At(u, k), At(a, k));
      }
    }
  }

  lemma FilledUnder(l: Layout, k: string, h: nat)
    requires l.Map? && !IsItem(Look(l, k)) && Within(Config(l), h) && h > 1
    ensures var below := Filled(Look(l, k), l.obj);
      && Objs(below) <= Objs(l) && Within(Config(below), h - 1) && Lifts(Look(l, k), below)
      && (Look(l, k).Some? <==> k in l.m) && (k !in l.m ==> Config(below) == Node(map[]))
  {
    if k in l.m {
      Under(l, k);
      assert Config(l).m[k] == Config(l.m[k]);
    } else {
      assert Config(Map(l.obj, map[])) == Node(map[]);
    }
  }

  // Nothing but maps under a key: the world of what lies there.
  lemma OnlyMaps(w: World, k: string, h: nat) returns (v: World)
    requires Distinct4(w) && Low(w, h) && h > 0
    requires var c := Under4(w, k); IsNode(c.r) && !IsItem(c.s) && !IsItem(c.u) && !IsItem(c.a)
    ensures h > 1 && Distinct4(v) && Low(v, h - 1) && LiftsAll(Under4(w, k), v)
    ensures CalmAt(At(Config(w.r), k), At(Config(w.s), k), At(Config(w.u), k), At(Config(w.a), k)) <==>
            Undisturbed(Config(v.r), Config(v.s), Config(v.u), Config(v.a))
  {
    RootsDiffer(w);
    assert Within(Config(w.r).m[k], h - 1);
    FilledUnder(w.r, k, h);
    FilledUnder(w.s, k, h);
    FilledUnder(w.u, k, h);
    FilledUnder(w.a, k, h);
    var c := Under4(w, k);
    v := World(c.r.value, Filled(c.s, w.s.obj), Filled(c.u, w.u.obj), Filled(c.a, w.a.obj));
    RootsDiffer(v);
    hide Objs;
  }

  // Only the server's map, and maps above it.
  lemma ServersMaps(w: World, k: string, h: nat) returns (v: World)
    requires Distinct4(w) && Low(w, h) && h > 0
    requires var c := Under4(w, k); !IsNode(c.r) && IsNode(c.s) && !IsItem(c.u) && !IsItem(c.a)
    ensures h > 1 && Distinct4(v) && Low(v, h - 1) && LiftsAll(WithoutServer(Under4(w, k)), v)
    ensures Undisturbed(Config(v.r), Config(v.s), Config(v.u), Config(v.a))
  {
    RootsDiffer(w);
    assert Within(Config(w.s).m[k], h - 1);
    FilledUnder(w.s, k, h);
    FilledUnder(w.u, k, h);
    FilledUnder(w.a, k, h);
    var c := Under4(w, k);
    v := World(c.s.value, Map(w.r.obj, map[]), Filled(c.u, w.u.obj), Filled(c.a, w.a.obj));
    assert Objs(v.s) == {w.r.obj} && Config(v.s) == Node(map[]);
    assert w.r.obj in Objs(w.r);
    RootsDiffer(v);
    hide Objs;
  }

  lemma {:induction false} KeyStable(w: World, k: string, h: nat)
    requires Distinct4(w) && Low(w, h)
    ensures Maps4(w) && (Same(Under4(w, k)) <==>
            CalmAt(At(Config(w.r), k), At(Config(w.s), k), At(Config(w.u), k), At(Config(w.a), k)))
    decreases h, 0
  {
    hide Undisturbed, Repeats, Same, Distinct4, Low, LiftsAll, Stable;
    RootsDiffer(w);
    var c := Under4(w, k);
    if IsItem(c.u) && IsNode(c.a) {
      ApartUnder(w, k);
      PlainBetween(c);
    } else if IsItem(c.a) || (c.a.None? && (IsItem(c.u) || (!IsNode(c.u) && IsItem(c.s)))) {
      PlainDecides(c);
    } else if IsItem(c.s) {
      PlainBelow(c);
    } else if IsNode(c.r) {
      HeightPositive(w, h);
      var v := OnlyMaps(w, k, h);
      SameIfLifted(c, v);
      StableIff(v, h - 1);
    } else if IsNode(c.s) {
      HeightPositive(w, h);
      var v := ServersMaps(w, k, h);
      ServerFirst(c);
      SameIfLifted(WithoutServer(c), v);
      StableIff(v, h - 1);
    } else {
      UserFirst(c);
    }
  }

  lemma HeightPositive(w: World, h: nat)
    requires Distinct4(w) && Low(w, h)
    ensures h > 0
  {
  }

  lemma ApartUnder(w: World, k: string)
    requires Distinct4(w)
    ensures Maps4(w)
    ensures var c := Under4(w, k); IsNode(c.r) && IsNode(c.a) ==> Objs(c.r.value) !! Objs(c.a.value)
  {
    RootsDiffer(w);
    if k in w.r.m && k in w.a.m {
      Under(w.r, k);
      Under(w.a, k);
    }
  }

  lemma ShownAt(l: Layout, k: string)
    requires l.Map?
    ensures At(Config(l), k) == Shown(Look(l, k))
  {
  }

  // The layers once more on the result of a first call, with the objects that they share since
  // then: the config is the same exactly when nothing disturbs the agent's maps.
  lemma {:induction false} StableIff(w: World, h: nat)
    requires Distinct4(w) && Low(w, h)
    ensures Stable(w) <==> Undisturbed(Config(w.r), Config(w.s), Config(w.u), Config(w.a))
    decreases h, 1
  {
    RootsDiffer(w);
    CalmEverywhere(Config(w.r), Config(w.s), Config(w.u), Config(w.a));
    hide Undisturbed, Repeats, Distinct4, Low, Config, Pass, PassCells, CalmAt;
    var once, twice := Pass(w), Pass(Pass(w));
    forall k
      ensures At(Config(twice.r), k) == At(Config(once.r), k) <==>
              CalmAt(At(Config(w.r), k), At(Config(w.s), k), At(Config(w.u), k), At(Config(w.a), k))
    {
      PassAt(w, k);
      PassAt(once, k);
      ShownAt(once.r, k);
      ShownAt(twice.r, k);
      KeyStable(w, k, h);
    }
    if forall k :: CalmAt(At(Config(w.r), k), At(Config(w.s), k), At(Config(w.u), k), At(Config(w.a), k)) {
      SameEverywhere(Config(twice.r), Config(once.r));
    }
  }

  // ----- layers as they are cleaned -----

  ghost function Cleaned(o: Obj, l: Layout): (c: Layout)
    requires l.Map?
    ensures c.Map? && c.obj == o
  {
    Map(o, map k | k in l.m && Says(Config(l.m[k])) :: l.m[k])
  }

  lemma CleanedIs(o: Obj, l: Layout)
    requires l.Map?
    ensures Config(Cleaned(o, l)) == Clean(Config(l)) && Objs(Cleaned(o, l)) <= Objs(l) + {o}
  {
    assert Config(Cleaned(o, l)).m == Clean(Config(l)).m;
    forall k | k in Cleaned(o, l).m
      ensures Objs(l.m[k]) <= Objs(l)
    {
      Under(l, k);
    }
  }

  // A cleaned layer, whose new map object no result ever refers to.
  ghost function CleanCell(x: Cell): Cell {
    if IsNode(x) then Some(Cleaned(x.value.obj, x.value)) else x
  }

  ghost function CopyCell(x: Cell, k: Obj): Cell {
    if IsNode(x) then Some(Cleaned(k, x.value)) else x
  }

  // MergeAgentConfig on the result so far and the three layers. The agent's layer is copied, into
  // the new map object k, before the user's layer is merged.
  ghost function PassClean(c: Cells, workspace: string, k: Obj): Cells {
    var c1 := AbsorbCell(c, c.s);
    var copy := CopyCell(c1.a, k);
    if workspace == "" then
      var y := CleanCell(c1.u);
      AbsorbCell(AbsorbCell(c1, y), UpdCell(copy, c1.r, y))
    else AbsorbCell(c1, copy)
  }

  // The same as if the agent's layer were copied last, unless that layer is the result itself.
  ghost function PassApart(c: Cells, workspace: string): Cells {
    var c1 := AbsorbCell(c, c.s);
    var c2 := if workspace == "" then AbsorbCell(c1, CleanCell(c1.u)) else c1;
    AbsorbCell(c2, CleanCell(c2.a))
  }

  // Maps or nothing, on a result that is none of them.
  ghost predicate Proper(c: Cells) {
    && IsNode(c.r) && !IsItem(c.s) && !IsItem(c.u) && !IsItem(c.a)
    && (c.s.Some? ==> c.s.value.obj != c.r.value.obj) && (c.u.Some? ==> c.u.value.obj != c.r.value.obj)
    && (c.a.Some? ==> c.a.value.obj != c.r.value.obj)
  }

  // The layers as the merges see them.
  ghost function Seen(c: Cells, workspace: string): Cells {
    Cells(c.r, c.s, if workspace == "" then CleanCell(c.u) else None, CleanCell(c.a))
  }

  // An update leaves what a key says as it is: nothing, something plain or a map.
  lemma SaysUpd(l: Layout, r: Layout, y: Layout, k: string)
    requires l.Map? && r.Map? && y.Map? && l.obj != r.obj && k in l.m
    ensures k in Upd(l, r, y).m && Says(Config(Upd(l, r, y).m[k])) == Says(Config(l.m[k]))
  {
  }

  // The update of a config under one key, the roots differing.
  lemma UpdKey(l: Layout, r: Layout, y: Layout, k: string)
    requires l.Map? && r.Map? && y.Map? && l.obj != r.obj
    ensures k in Upd(l, r, y).m <==> k in l.m
    ensures k in l.m ==> Some(Upd(l, r, y).m[k]) == UpdCell(Some(l.m[k]), Look(r, k), Look(y, k))
  {
  }

  lemma CleanedAt(o: Obj, l: Layout, k: string)
    requires l.Map?
    ensures Look(Cleaned(o, l), k) == if k in l.m && Says(Config(l.m[k])) then Some(l.m[k]) else None
  {
  }

  lemma CleanUpdAt(o: Obj, l: Layout, r: Layout, y: Layout, k: string)
    requires l.Map? && r.Map? && y.Map? && l.obj != r.obj && o != r.obj
    ensures Look(Upd(Cleaned(o, l), r, y), k) == Look(Cleaned(o, Upd(l, r, y)), k)
  {
    hide Upd, UpdCell, Config, Says, Cleaned;
    UpdKey(Cleaned(o, l), r, y, k);
    UpdKey(l, r, y, k);
    CleanedAt(o, l, k);
    CleanedAt(o, Upd(l, r, y), k);
    if k in l.m {
      SaysUpd(l, r, y, k);
    }
  }

  lemma SameLooks(x: Layout, y: Layout)
    requires x.Map? && y.Map? && x.obj == y.obj && forall k :: Look(x, k) == Look(y, k)
    ensures x == y
  {
    forall k
      ensures k in x.m <==> k in y.m
      ensures k in x.m ==> x.m[k] == y.m[k]
    {
      assert Look(x, k) == Look(y, k);
    }
    assert x.m == y.m;
  }

  lemma CleanUpd(o: Obj, l: Layout, r: Layout, y: Layout)
    requires l.Map? && r.Map? && y.Map? && l.obj != r.obj && o != r.obj
    ensures Upd(Cleaned(o, l), r, y) == Cleaned(o, Upd(l, r, y))
  {
    hide Upd, Cleaned;
    forall k
      ensures Look(Upd(Cleaned(o, l), r, y), k) == Look(Cleaned(o, Upd(l, r, y)), k)
    {
      CleanUpdAt(o, l, r, y, k);
    }
    SameLooks(Upd(Cleaned(o, l), r, y), Cleaned(o, Upd(l, r, y)));
  }

  lemma SeenAbsorb(c: Cells, y: Cell, workspace: string)
    requires Proper(c) && !IsItem(y)
    ensures Proper(AbsorbCell(c, y)) && Seen(AbsorbCell(c, y), workspace) == AbsorbCell(Seen(c, workspace), y)
  {
    if y.Some? {
      if c.u.Some? { CleanUpd(c.u.value.obj, c.u.value, c.r.value, y.value); }
      if c.a.Some? { CleanUpd(c.a.value.obj, c.a.value, c.r.value, y.value); }
      hide Upd, Merged, Cleaned;
    }
  }

  lemma SeenPass(c: Cells, workspace: string)
    requires Proper(c)
    ensures Proper(PassApart(c, workspace)) && Seen(PassApart(c, workspace), workspace) == PassCells(Seen(c, workspace))
  {
    hide AbsorbCell, Proper;
    var c1 := AbsorbCell(c, c.s);
    var c2 := if workspace == "" then AbsorbCell(c1, CleanCell(c1.u)) else c1;
    ProperKinds(c);
    SeenAbsorb(c, c.s, workspace);
    ProperKinds(c1);
    if workspace == "" {
      SeenAbsorb(c1, CleanCell(c1.u), workspace);
    } else {
      AbsorbNothing(Seen(c1, workspace));
    }
    ProperKinds(c2);
    SeenAbsorb(c2, CleanCell(c2.a), workspace);
  }

  lemma ProperKinds(c: Cells)
    requires Proper(c)
    ensures !IsItem(c.s) && !IsItem(CleanCell(c.u)) && !IsItem(CleanCell(c.a)) && IsNode(c.r)
  {
  }

  lemma AbsorbNothing(c: Cells)
    ensures AbsorbCell(c, None) == c
  {
  }

  // Merging looks at what a map holds, not at the map object.
  lemma SameSource(l: Layout, d: Layout, x: Layout, y: Layout)
    requires l.Map? && d.Map? && x.Map? && y.Map? && x.m == y.m
    ensures Merged(d, x) == Merged(d, y) && Upd(l, d, x) == Upd(l, d, y)
  {
    assert Merged(d, x).m == Merged(d, y).m;
    assert Upd(l, d, x).m == Upd(l, d, y).m;
  }

  lemma RootIrrelevant(c: Cells, l: Layout, o: Obj)
    requires l.Map? && IsNode(c.r)
    ensures AbsorbCell(c, CopyCell(Some(l), o)) == AbsorbCell(c, CleanCell(Some(l)))
  {
    var x, y := Cleaned(o, l), Cleaned(l.obj, l);
    assert x.m == y.m;
    SameSource(c.r.value, c.r.value, x, y);
    if IsNode(c.s) { SameSource(c.s.value, c.r.value, x, y); }
    if IsNode(c.u) { SameSource(c.u.value, c.r.value, x, y); }
    if IsNode(c.a) { SameSource(c.a.value, c.r.value, x, y); }
    hide Merged, Upd, Cleaned;
  }

  lemma PassIsApart(c: Cells, workspace: string, k: Obj)
    requires Proper(c) && k != c.r.value.obj
    ensures PassClean(c, workspace, k) == PassApart(c, workspace)
  {
    var c1 := AbsorbCell(c, c.s);
    ProperKinds(c);
    SeenAbsorb(c, c.s, workspace);
    ProperKinds(c1);
    var y := CleanCell(c1.u);
    if workspace == "" && y.Some? {
      SeenAbsorb(c1, y, workspace);
      if c1.a.Some? {
        CleanUpd(k, c1.a.value, c1.r.value, y.value);
      }
    }
    var c2 := if workspace == "" then AbsorbCell(c1, y) else c1;
    if c2.a.Some? {
      RootIrrelevant(c2, c2.a.value, k);
    }
    hide Merged, Upd, Cleaned;
  }

  ghost function Feet(l: Cell): set<Obj> {
    if l.Some? then Objs(l.value) else {}
  }

  // No two of the four share a map.
  ghost predicate ApartCells(c: Cells) {
    && IsNode(c.r) && !IsItem(c.s) && !IsItem(c.u) && IsNode(c.a)
    && Feet(c.r) !! Feet(c.s) && Feet(c.r) !! Feet(c.u) && Feet(c.r) !! Feet(c.a)
    && Feet(c.s) !! Feet(c.u) && Feet(c.s) !! Feet(c.a) && Feet(c.u) !! Feet(c.a)
  }

  lemma ApartProper(c: Cells)
    requires ApartCells(c)
    ensures Proper(c)
  {
    assert forall l: Layout | l.Map? :: l.obj in Objs(l);
  }

  lemma ServerMerged(c: Cells)
    requires ApartCells(c)
    ensures var c1 := AbsorbCell(c, c.s);
      && IsNode(c1.r) && c1.u == c.u && c1.a == c.a && Objs(c1.r.value) <= Feet(c.r) + Feet(c.s)
      && Config(c1.r.value) == if c.s.Some? then Merge(Config(c.r.value), Config(c.s.value)) else Config(c.r.value)
  {
    if c.s.Some? {
      var r, s := c.r.value, c.s.value;
      MergedConfig(r, s);
      MergedObjs(r, s);
      UpdApart(c.a.value, r, s);
      if c.u.Some? {
        UpdApart(c.u.value, r, s);
      }
    }
    hide Merged, Upd, Config, Merge;
  }

  // The config of a first call, on layers that share nothing, is the one of the trees; the objects
  // of the agent's layer are as they were.
  lemma FirstCall(c: Cells, workspace: string)
    requires ApartCells(c)
    ensures Shown(PassApart(c, workspace).r) == AgentConfig(Shown(c.r), Shown(c.s), Shown(c.u), Shown(c.a), workspace)
    ensures PassApart(c, workspace).a == c.a
  {
    var r, a := c.r.value, c.a.value;
    InOrder(Shown(c.r), Shown(c.s), Shown(c.u), Config(a), workspace);
    CleanedIs(a.obj, a);
    ServerMerged(c);
    var c1 := AbsorbCell(c, c.s);
    UserMerged(c, c1, workspace);
    var c2 := if workspace == "" then AbsorbCell(c1, CleanCell(c1.u)) else c1;
    MergedConfig(c2.r.value, Cleaned(a.obj, a));
    UpdApart(a, c2.r.value, Cleaned(a.obj, a));
    hide Merged, Upd, Cleaned, AgentConfig, Merge, Clean, Config;
  }

  lemma UserMerged(c: Cells, c1: Cells, workspace: string)
    requires ApartCells(c) && c1 == AbsorbCell(c, c.s)
    requires IsNode(c1.r) && c1.u == c.u && c1.a == c.a && Objs(c1.r.value) <= Feet(c.r) + Feet(c.s)
    ensures var c2 := if workspace == "" then AbsorbCell(c1, CleanCell(c1.u)) else c1;
      && IsNode(c2.r) && c2.a == c.a && Objs(c2.r.value) !! Objs(c.a.value)
      && Config(c2.r.value) == if workspace == "" && c.u.Some? then Merge(Config(c1.r.value), Clean(Config(c.u.value)))
                               else Config(c1.r.value)
  {
    if workspace == "" && c.u.Some? {
      var u, r1 := Cleaned(c.u.value.obj, c.u.value), c1.r.value;
      assert c.u.value.obj in Objs(c.u.value);
      CleanedIs(c.u.value.obj, c.u.value);
      MergedConfig(r1, u);
      MergedObjs(r1, u);
      UpdApart(c.a.value, r1, u);
      hide Merged, Upd, Cleaned, Merge, Clean, Config;
    }
  }

  // Whether a second call gives the same config: without a workspace, the user's layer must not
  // hold a plain value between maps of the server's and the agent's.
  ghost predicate Repeatable(d: Slot, s: Slot, u: Slot, a: Slot, workspace: string)
    requires IsMap(d) && IsConfig(s) && IsConfig(u) && IsMap(a)
  {
    workspace == "" && s.Some? && u.Some? ==> Undisturbed(d.value, s.value, Clean(u.value), Clean(a.value))
  }

  // The layers as the world of StableIff.
  lemma TopWorld(c: Cells, workspace: string) returns (w: World, h: nat)
    requires ApartCells(c)
    ensures LiftsAll(Seen(c, workspace), w) && Distinct4(w) && Low(w, h)
    ensures Undisturbed(Config(w.r), Config(w.s), Config(w.u), Config(w.a)) <==>
            Repeatable(Shown(c.r), Shown(c.s), Shown(c.u), Shown(c.a), workspace)
  {
    var q, o := Seen(c, workspace), c.a.value.obj;
    assert o in Objs(c.a.value) && Objs(Map(o, map[])) == {o} && Config(Map(o, map[])) == Node(map[]);
    w := World(c.r.value, Filled(q.s, o), Filled(q.u, o), Filled(q.a, o));
    CleanedIs(o, c.a.value);
    if c.u.Some? {
      assert c.u.value.obj in Objs(c.u.value);
      CleanedIs(c.u.value.obj, c.u.value);
    }
    hide Cleaned, Objs;
    RootsDiffer(w);
    h := CommonHeight(w);
  }

  lemma CommonHeight(w: World) returns (h: nat)
    ensures Low(w, h)
  {
    var a := SomeHeight(Config(w.r));
    var b := SomeHeight(Config(w.s));
    var c := SomeHeight(Config(w.u));
    var d := SomeHeight(Config(w.a));
    h := a + b + c + d;
    WithinMore(Config(w.r), a, h);
    WithinMore(Config(w.s), b, h);
    WithinMore(Config(w.u), c, h);
    WithinMore(Config(w.a), d, h);
  }

  // A second call on the objects of a first one, with all that they share by then.
  lemma SecondCall(c: Cells, workspace: string)
    requires ApartCells(c)
    ensures Shown(PassApart(PassApart(c, workspace), workspace).r) == Shown(PassApart(c, workspace).r) <==>
            Repeatable(Shown(c.r), Shown(c.s), Shown(c.u), Shown(c.a), workspace)
  {
    hide PassApart, PassCells, Repeatable, Undisturbed, LiftsAll, Distinct4, Low, Stable;
    ApartProper(c);
    SeenPass(c, workspace);
    SeenPass(PassApart(c, workspace), workspace);
    var w, h := TopWorld(c, workspace);
    SameIfLifted(Seen(c, workspace), w);
    StableIff(w, h);
  }

  // What the cleaned layer and the result show under a key is what the layer and the result hold.
  lemma BothHold(c: Cells, w: World, k: string)
    requires Proper(c) && LiftsAll(Seen(c, ""), w) && k in w.r.m && k in w.a.m
    ensures c.r.Some? && c.r.value.Map? && Look(c.r.value, k) == Some(w.r.m[k])
    ensures c.a.Some? && c.a.value.Map? && Look(c.a.value, k) == Some(w.a.m[k])
  {
    if c.a.Some? {
      CleanedAt(c.a.value.obj, c.a.value, k);
    }
    hide Cleaned;
  }

  // Such a value lets the server's map through: after the second call the agent's own map, and the
  // result, hold the server's merged into the agent's under that key.
  lemma PlainValueLetsThrough(c: Cells, k: string)
    requires ApartCells(c) && c.s.Some? && c.u.Some? && k in c.s.value.m && k in c.u.value.m && k in c.a.value.m
    requires c.s.value.m[k].Map? && c.u.value.m[k].Item? && Says(Config(c.u.value.m[k])) && c.a.value.m[k].Map?
    ensures var two := PassApart(PassApart(c, ""), "");
      var mixed := Some(Merge(Config(c.a.value.m[k]), Config(c.s.value.m[k])));
      two.a.Some? && two.r.Some? && two.a.value.Map? && two.r.value.Map?
      && Shown(Look(two.a.value, k)) == mixed && Shown(Look(two.r.value, k)) == mixed
  {
    ApartProper(c);
    SeenPass(c, "");
    SeenPass(PassApart(c, ""), "");
    var w, h := TopWorld(c, "");
    CleanedAt(c.u.value.obj, c.u.value, k);
    CleanedAt(c.a.value.obj, c.a.value, k);
    ApartUnder(w, k);
    MergedConfig(c.a.value.m[k], c.s.value.m[k]);
    BetweenMaps(Under4(w, k));
    LiftPass(Seen(c, ""), w);
    LiftPass(PassCells(Seen(c, "")), Pass(w));
    PassAt(w, k);
    PassAt(Pass(w), k);
    hide PassApart, Pass, PassCells, Config, Merged, Merge, Cleaned, ApartCells, Distinct4, Low, Undisturbed;
    BothHold(PassApart(PassApart(c, ""), ""), Pass(Pass(w)), k);
  }
}
