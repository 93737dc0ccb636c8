/**
 deepMerge, cleanNil and MergeAgentConfig of config/config.go over map objects. deepMerge writes
 into its first argument, and the nested maps of the second become part of it without being
 copied; the values that result are those of ConfigTree. Configs may share maps, at equal paths,
 as they do once a call has been made.
 */
module ConfigHeap {
  import opened Prelude
  import opened ConfigTree
  import opened ConfigLayout
  import opened ConfigSharing
  import opened ConfigSync

  // The objects whose entries deepMerge(d, s) changes: none if it merges a map into itself.
  ghost function Touched(d: Layout, s: Layout): set<Obj>
    requires d.Map? && s.Map?
    decreases s
  {
    if d == s then {}
    else {d.obj} + set k, x | k in d.m && k in s.m && d.m[k].Map? && s.m[k].Map? && x in Touched(d.m[k], s.m[k]) :: x
  }

  // deepMerge after the keys `done`.
  ghost function Partly(d: Layout, s: Layout, done: set<string>): (r: Layout)
    requires d.Map? && s.Map? && done <= s.m.Keys
    ensures r.Map? && r.obj == d.obj
  {
    Map(d.obj, map k | k in d.m.Keys + done :: if k in done then Merged(d, s).m[k] else d.m[k])
  }

  lemma PartlySelf(d: Layout, done: set<string>)
    requires d.Map? && done <= d.m.Keys
    ensures Partly(d, d, done) == d
  {
    MergedSelf(d);
    assert Partly(d, d, done).m == d.m;
  }

  ghost predicate Ready(dst: Obj, src: Obj, d: Layout, s: Layout) {
    d.Map? && d.obj == dst && s.Map? && s.obj == src && Unshared(d) && Unshared(s) && Sync(d, s)
  }

  // What lies under another key is neither dst nor anything that dst still has of its own under k.
  lemma ElseWhere(d: Layout, s: Layout, done: set<string>, j: string, k: string)
    requires d.Map? && s.Map? && Ready(d.obj, s.obj, d, s)
    requires done <= s.m.Keys && k !in done && j != k && j in Partly(d, s, done).m
    ensures d.obj !in Objs(Partly(d, s, done).m[j])
    ensures k in d.m ==> Objs(Partly(d, s, done).m[j]) !! Objs(d.m[k])
  {
    if j in done {
      MergedUnder(d, s, j);
      SyncRoot(d, s, j);
      if k in d.m {
        SyncBelow(d, s, k, j);
      }
    }
  }

  // Nothing under another key of l is an object of `written`.
  ghost predicate Beside(l: Layout, k: string, written: set<Obj>)
    requires l.Map?
  {
    forall j | j in l.m && j != k :: Objs(l.m[j]) !! written
  }

  // dst[k] = v
  method SetEntry(o: Obj, k: string, v: Value, ghost l: Layout, ghost x: Layout)
    requires l.Map? && l.obj == o && Stored(l) && Beside(l, k, {o})
    requires v == ValueOf(x) && Stored(x) && o !in Objs(x)
    modifies o`entries
    ensures Stored(Map(o, l.m[k := x])) && o.entries == old(o.entries)[k := v]
  {
    hide Objs;
    o.entries := o.entries[k := v];
    forall j | j in l.m && j != k
      ensures Stored(l.m[j])
    {
      assert old(Stored(l.m[j])) && Objs(l.m[j]) !! {o};
    }
  }

  // deepMerge(existingMap, srcMap)
  method MergeEntry(o: Obj, k: string, from: Obj, ghost l: Layout, ghost e: Layout)
    requires l.Map? && l.obj == o && Stored(l) && k in o.entries && o.entries[k].Ref?
    requires k in l.m && o !in Objs(l.m[k]) && Beside(l, k, Objs(l.m[k]))
    requires Ready(o.entries[k].obj, from, l.m[k], e) && Stored(e)
    modifies Objs(l.m[k])
    ensures Stored(Map(o, l.m[k := Merged(l.m[k], e)])) && Stored(e)
    ensures forall x | x in Objs(l.m[k]) && old(allocated(x)) && x !in Touched(l.m[k], e) :: unchanged(x)
    decreases e, 2
  {
    hide Objs, Merged, Unshared, Sync, Touched;
    DeepMerge(o.entries[k].obj, from, l.m[k], e);
    forall j | j in l.m && j != k
      ensures Stored(l.m[j])
    {
      assert old(allocated(Objs(l.m[j])));
      assert old(Stored(l.m[j])) && Objs(l.m[j]) !! Objs(l.m[k]);
    }
  }

  lemma StoredAt(l: Layout, k: string)
    requires l.Map? && k in l.m && Stored(l)
    ensures k in l.obj.entries && l.obj.entries[k] == ValueOf(l.m[k]) && Stored(l.m[k])
  {
  }

  lemma StoredKeys(l: Layout)
    requires l.Map? && Stored(l)
    ensures l.obj.entries.Keys == l.m.Keys
  {
  }

  lemma StoredFrom(l: Layout)
    requires l.Map? && l.obj.entries.Keys == l.m.Keys
    requires forall k | k in l.m :: l.obj.entries[k] == ValueOf(l.m[k]) && Stored(l.m[k])
    ensures Stored(l)
  {
  }

  lemma PartlyBeside(d: Layout, s: Layout, done: set<string>, k: string)
    requires d.Map? && s.Map? && Ready(d.obj, s.obj, d, s)
    requires done <= s.m.Keys && k in s.m && k !in done
    ensures Beside(Partly(d, s, done), k, {d.obj})
    ensures k in d.m ==> Beside(Partly(d, s, done), k, Objs(d.m[k]))
    ensures k in d.m ==> k in Partly(d, s, done).m && Partly(d, s, done).m[k] == d.m[k]
    ensures (d != s ==> d.obj !in Objs(s)) && d.obj !in Objs(s.m[k])
  {
    forall j | j in Partly(d, s, done).m && j != k
      ensures Objs(Partly(d, s, done).m[j]) !! {d.obj}
      ensures k in d.m ==> Objs(Partly(d, s, done).m[j]) !! Objs(d.m[k])
    {
      ElseWhere(d, s, done, j, k);
    }
    SyncRoot(d, s, k);
  }

  lemma PartlyNext(d: Layout, s: Layout, done: set<string>, k: string)
    requires d.Map? && s.Map? && done <= s.m.Keys && k in s.m && k !in done
    ensures var now := Partly(d, s, done);
      Partly(d, s, done + {k}) ==
      Map(d.obj, now.m[k := if k in d.m && d.m[k].Map? && s.m[k].Map? then Merged(d.m[k], s.m[k]) else s.m[k]])
  {
    var now, next := Partly(d, s, done), Partly(d, s, done + {k});
    var x := if k in d.m && d.m[k].Map? && s.m[k].Map? then Merged(d.m[k], s.m[k]) else s.m[k];
    assert next.m[k] == x;
    assert next.m == now.m[k := x];
  }

  lemma ReadyBelow(d: Layout, s: Layout, k: string)
    requires d.Map? && s.Map? && Ready(d.obj, s.obj, d, s)
    requires k in d.m && k in s.m && d.m[k].Map? && s.m[k].Map?
    ensures Ready(d.m[k].obj, s.m[k].obj, d.m[k], s.m[k])
    ensures d.obj !in Objs(d.m[k]) && Objs(d.m[k]) <= Objs(d)
    ensures d != s ==> s.obj !in Objs(d.m[k]) && Touched(d.m[k], s.m[k]) <= Touched(d, s)
    ensures d == s ==> Touched(d.m[k], s.m[k]) == {}
    ensures d != s ==> forall j | j in s.m && j != k :: Objs(s.m[j]) !! Objs(d.m[k])
  {
    Under(d, k);
    SyncBelow(d, s, k, k);
    forall j | j in s.m && j != k
      ensures Objs(s.m[j]) !! Objs(d.m[k])
    {
      SyncBelow(d, s, k, j);
    }
  }

  // dst[k] = v: what dst held under k, if anything, is forgotten; a map under v is shared from now on.
  method Overwrite(dst: Obj, src: Obj, k: string, ghost d: Layout, ghost s: Layout, ghost done: set<string>)
    requires Ready(dst, src, d, s) && Stored(s) && done <= s.m.Keys && k in s.m && k !in done
    requires Stored(Partly(d, s, done)) && !(k in d.m && d.m[k].Map? && s.m[k].Map?)
    modifies dst
    ensures Stored(s) && Stored(Partly(d, s, done + {k}))
    ensures d == s ==> unchanged(dst)
  {
    hide Objs, Merged, Partly, Unshared, Stored, Beside, Sync;
    PartlyBeside(d, s, done, k);
    PartlyNext(d, s, done, k);
    StoredAt(s, k);
    assert allocated(Objs(s));
    SetEntry(dst, k, src.entries[k], Partly(d, s, done), s.m[k]);
    if d == s {
      PartlySelf(d, done + {k});
      assert dst.entries == old(dst.entries);
    }
  }

  // dst[k] = deepMerge(existingMap, srcMap)
  method Descend(dst: Obj, src: Obj, k: string, ghost d: Layout, ghost s: Layout, ghost done: set<string>)
    requires Ready(dst, src, d, s) && Stored(s) && done <= s.m.Keys && k in s.m && k !in done
    requires Stored(Partly(d, s, done)) && k in d.m && d.m[k].Map? && s.m[k].Map?
    modifies Objs(d.m[k])
    ensures Stored(s) && Stored(Partly(d, s, done + {k}))
    ensures forall x | x in Objs(d.m[k]) && old(allocated(x)) && x !in Touched(d.m[k], s.m[k]) :: unchanged(x)
    decreases s, 0
  {
    hide Objs, Merged, Partly, Unshared, Stored, Beside, Sync, Touched;
    PartlyBeside(d, s, done, k);
    PartlyNext(d, s, done, k);
    ReadyBelow(d, s, k);
    StoredAt(s, k);
    StoredAt(Partly(d, s, done), k);
    assert allocated(Objs(s));
    forall j | j in s.m
      ensures src.entries.Keys == s.m.Keys && src.entries[j] == ValueOf(s.m[j]) && Stored(s.m[j])
    {
      StoredAt(s, j);
      StoredKeys(s);
    }
    MergeEntry(dst, k, src.entries[k].obj, Partly(d, s, done), s.m[k]);
    if d == s {
      PartlySelf(d, done + {k});
    } else {
      forall j | j in s.m && j != k
        ensures Stored(s.m[j])
      {
        assert old(allocated(Objs(s.m[j])));
        assert old(Stored(s.m[j])) && Objs(s.m[j]) !! Objs(d.m[k]);
      }
      StoredFrom(s);
    }
  }

  lemma PartlyEnds(d: Layout, s: Layout)
    requires d.Map? && s.Map?
    ensures Partly(d, s, {}) == d && Partly(d, s, s.m.Keys) == Merged(d, s)
    ensures forall x | x in Touched(d, s) && d == s :: false
    ensures d.obj in Objs(d) && (d != s ==> d.obj in Touched(d, s))
    ensures s.m.Keys - s.m.Keys == {}
  {
    assert Partly(d, s, {}).m == d.m;
    assert Partly(d, s, s.m.Keys).m == Merged(d, s).m;
  }

  lemma PartlyKeys(d: Layout, s: Layout, done: set<string>, k: string)
    requires d.Map? && s.Map? && done <= s.m.Keys && k !in done
    ensures k in Partly(d, s, done).m <==> k in d.m
    ensures k in d.m ==> Partly(d, s, done).m[k] == d.m[k]
  {
  }

  method DeepMerge(dst: Obj, src: Obj, ghost d: Layout, ghost s: Layout)
    requires Ready(dst, src, d, s) && Stored(d) && Stored(s)
    modifies Objs(d)
    ensures Stored(Merged(d, s)) && Stored(s)
    ensures forall x | x in Objs(d) && old(allocated(x)) && x !in Touched(d, s) :: unchanged(x)
    decreases s, 1
  {
    hide Objs, Merged, Unshared, Sync, Touched, Partly, Stored;
    var rest := src.entries.Keys;
    StoredKeys(d);
    StoredKeys(s);
    PartlyEnds(d, s);
    while rest != {}
      invariant rest <= s.m.Keys && Stored(s)
      invariant Stored(Partly(d, s, s.m.Keys - rest))
      invariant forall x | x in Objs(d) && old(allocated(x)) && x !in Touched(d, s) :: unchanged(x)
    {
      var k :| k in rest;
      assert s.m.Keys - (rest - {k}) == (s.m.Keys - rest) + {k};
      PartlyKeys(d, s, s.m.Keys - rest, k);
      StoredKeys(Partly(d, s, s.m.Keys - rest));
      StoredAt(s, k);
      if k in d.m {
        StoredAt(Partly(d, s, s.m.Keys - rest), k);
      }
      if k in dst.entries && dst.entries[k].Ref? && src.entries[k].Ref? {
        ReadyBelow(d, s, k);
        Descend(dst, src, k, d, s, s.m.Keys - rest);
      } else {
        Overwrite(dst, src, k, d, s, s.m.Keys - rest);
      }
      rest := rest - {k};
    }
    assert s.m.Keys - rest == s.m.Keys;
  }

  // A map that the second layer brought in is written by the third: the object that held the
  // second layer's value under k holds the merge with the third layer's afterwards.
  lemma LaterLayersWriteEarlierMaps(d: Layout, s: Layout, u: Layout, k: string)
    requires d.Map? && s.Map? && u.Map?
    requires k in s.m && k in u.m && s.m[k].Map? && u.m[k].Map? && !(k in d.m && d.m[k].Map?)
    ensures var r := Merged(Merged(d, s), u);
      k in r.m && r.m[k].Map? && r.m[k].obj == s.m[k].obj && Config(r.m[k]) == Merge(Config(s.m[k]), Config(u.m[k]))
  {
    assert Merged(d, s).m[k] == s.m[k];
    MergedConfig(s.m[k], u.m[k]);
  }

  // ----- the other configs that share objects -----

  // The heap holds the config, as far as its objects outside t go.
  ghost predicate StoredBut(l: Layout, t: set<Obj>)
    reads Objs(l) - t
  {
    l.Map? ==>
      (l.obj !in t ==> l.obj.entries.Keys == l.m.Keys && forall k | k in l.m :: l.obj.entries[k] == ValueOf(l.m[k])) &&
      (forall k | k in l.m :: StoredBut(l.m[k], t))
  }

  lemma {:induction false} StoredButAny(l: Layout, t: set<Obj>)
    requires Stored(l)
    ensures StoredBut(l, t)
  {
    if l.Map? {
      forall k | k in l.m
        ensures StoredBut(l.m[k], t)
      {
        StoredButAny(l.m[k], t);
      }
    }
  }

  lemma {:induction false} StoredButFew(l: Layout, t: set<Obj>, few: set<Obj>)
    requires StoredBut(l, t) && Objs(l) * t <= few
    ensures StoredBut(l, few)
  {
    if l.Map? {
      assert l.obj in Objs(l);
      forall k | k in l.m
        ensures StoredBut(l.m[k], few)
      {
        Under(l, k);
        StoredButFew(l.m[k], t, few);
      }
    }
  }

  lemma {:induction false} StoredButNone(l: Layout)
    requires StoredBut(l, {})
    ensures Stored(l)
  {
    if l.Map? {
      forall k | k in l.m
        ensures Stored(l.m[k])
      {
        StoredButNone(l.m[k]);
      }
    }
  }

  lemma {:induction false} TouchedOwn(d: Layout, s: Layout)
    requires d.Map? && s.Map?
    ensures Touched(d, s) <= Objs(d)
    decreases s
  {
    if d != s {
      forall k | k in d.m && k in s.m && d.m[k].Map? && s.m[k].Map?
        ensures Touched(d.m[k], s.m[k]) <= Objs(d)
      {
        TouchedOwn(d.m[k], s.m[k]);
        Under(d, k);
      }
    }
  }

  // Of what lies under a key of another config only what lies under the same key is changed.
  lemma TouchedAt(l: Layout, d: Layout, s: Layout, k: string)
    requires Fine3(l, d, s) && l != d && k in l.m
    ensures Objs(l.m[k]) * Touched(d, s) <=
            if k in d.m && k in s.m && l.m[k].Map? && d.m[k].Map? && s.m[k].Map? then Touched(d.m[k], s.m[k]) else {}
  {
    Under(l, k);
    forall x, j | j in d.m && j in s.m && d.m[j].Map? && s.m[j].Map? && x in Touched(d.m[j], s.m[j])
        && x in Objs(l.m[k])
      ensures j == k && l.m[k].Map?
    {
      TouchedOwn(d.m[j], s.m[j]);
      SyncBelow(l, d, k, j);
    }
    SyncBack(l, d);
    SyncRoot(d, l, k);
  }

  lemma {:induction false} UpdStored(l: Layout, d: Layout, s: Layout)
    requires Fine3(l, d, s) && Stored(Merged(d, s)) && StoredBut(l, Touched(d, s))
    ensures Stored(Upd(l, d, s))
    decreases s
  {
    if d == s {
      UpdSelf(l, d);
      StoredButNone(l);
    } else if l != d {
      TouchedOwn(d, s);
      forall k | k in l.m
        ensures Stored(Upd(l, d, s).m[k])
      {
        TouchedAt(l, d, s, k);
        if k in d.m && k in s.m && l.m[k].Map? && d.m[k].Map? && s.m[k].Map? {
          FineBelow(l, d, s, k);
          StoredAt(Merged(d, s), k);
          StoredButFew(l.m[k], Touched(d, s), Touched(d.m[k], s.m[k]));
          UpdStored(l.m[k], d.m[k], s.m[k]);
        } else {
          StoredButFew(l.m[k], Touched(d, s), {});
          StoredButNone(l.m[k]);
        }
      }
    }
  }

  // ----- a family of configs -----

  // Maps of which any two share objects at equal paths only.
  ghost predicate InStep(ls: set<Layout>) {
    (forall x | x in ls :: x.Map? && Unshared(x)) && forall x, y | x in ls && y in ls :: Sync(x, y)
  }

  lemma InStepUpd(ls: set<Layout>, d: Layout, s: Layout)
    requires InStep(ls) && d in ls && s in ls
    ensures InStep(set x | x in ls :: Upd(x, d, s))
  {
    forall x | x in ls
      ensures Unshared(Upd(x, d, s))
    {
      UpdUnshared(x, d, s);
    }
    forall x, y | x in ls && y in ls
      ensures Sync(Upd(x, d, s), Upd(y, d, s))
    {
      UpdSync(x, y, d, s);
    }
  }

  // A map that may be nil, with its layout if it is not.
  ghost predicate Given(o: Obj?, l: Cell)
    reads Feet(l)
  {
    (o == null <==> l.None?) && (l.Some? ==> l.value.Map? && l.value.obj == o && Stored(l.value))
  }

  ghost function One(c: Cell): set<Layout> {
    if c.Some? then {c.value} else {}
  }

  ghost function All(c: Cells): set<Layout> {
    One(c.r) + One(c.s) + One(c.u) + One(c.a)
  }

  ghost function AllFeet(c: Cells): set<Obj> {
    Feet(c.r) + Feet(c.s) + Feet(c.u) + Feet(c.a)
  }

  // The objects of a call: the result so far and the three layers.
  ghost predicate Held(base: Obj, server: Obj?, user: Obj?, agent: Obj?, c: Cells)
    reads AllFeet(c)
  {
    Given(base, c.r) && Given(server, c.s) && Given(user, c.u) && Given(agent, c.a) && InStep(All(c))
  }

  lemma InStepPart(part: set<Layout>, ls: set<Layout>)
    requires InStep(ls) && part <= ls
    ensures InStep(part)
  {
  }

  // One layer's cell after base has absorbed y.
  lemma CellUpd(l: Cell, d: Layout, s: Layout, ls: set<Layout>)
    requires One(l) <= ls && d.Map? && s.Map? && forall x | x in ls :: x.Map?
    ensures var after := UpdCell(l, Some(d), Some(s));
      && One(after) <= (set x | x in ls :: Upd(x, d, s)) && Feet(after) <= Feet(l) + Objs(s)
      && (l.Some? <==> after.Some?) && (l.Some? ==> after.value == Upd(l.value, d, s))
  {
    if l.Some? {
      assert l.value in ls;
      UpdObjs(l.value, d, s);
    }
  }

  // The result and the layer that is absorbed, as members of the family.
  lemma SourceUpd(d: Layout, s: Layout, ls: set<Layout>)
    requires d in ls && s in ls && forall x | x in ls :: x.Map?
    ensures var news := set x | x in ls :: Upd(x, d, s); Merged(d, s) in news && s in news
    ensures Objs(Merged(d, s)) <= Objs(d) + Objs(s)
  {
    UpdOwn(d, s);
    UpdObjs(d, d, s);
    assert Upd(d, d, s) == Merged(d, s);
    var news := set x | x in ls :: Upd(x, d, s);
    assert Upd(d, d, s) in news && Upd(s, d, s) in news;
  }

  lemma NewsCells(c: Cells, y: Cell, z: Cell, ls: set<Layout>)
    requires c.r.Some? && y.Some? && ls == All(c) + One(y) + One(z) && forall x | x in ls :: x.Map?
    ensures var after, d, s := AbsorbCell(c, y), c.r.value, y.value;
      && after.r == Some(Merged(d, s)) && AllFeet(after) <= AllFeet(c) + Feet(y)
      && All(after) + One(y) + One(UpdCell(z, c.r, y)) <= set x | x in ls :: Upd(x, d, s)
  {
    hide Objs, Merged, Upd;
    var d, s := c.r.value, y.value;
    assert d in ls && s in ls;
    SourceUpd(d, s, ls);
    CellUpd(c.s, d, s, ls);
    CellUpd(c.u, d, s, ls);
    CellUpd(c.a, d, s, ls);
    CellUpd(z, d, s, ls);
    hide UpdCell;
  }

  lemma AbsorbInStep(c: Cells, y: Cell, z: Cell)
    requires c.r.Some? && y.Some? && InStep(All(c) + One(y) + One(z))
    ensures c.r.value.Map? && y.value.Map?
    ensures var after := AbsorbCell(c, y);
      && after.r == Some(Merged(c.r.value, y.value)) && InStep(All(after) + One(y) + One(UpdCell(z, c.r, y)))
      && AllFeet(after) <= AllFeet(c) + Feet(y)
  {
    var ls, d, s := All(c) + One(y) + One(z), c.r.value, y.value;
    assert d in ls && s in ls && forall x | x in ls :: x.Map?;
    hide Objs, Merged, Unshared, Sync, Upd, All, One, AllFeet, Feet, AbsorbCell, InStep;
    InStepUpd(ls, d, s);
    NewsCells(c, y, z, ls);
    InStepPart(All(AbsorbCell(c, y)) + One(y) + One(UpdCell(z, c.r, y)), set x | x in ls :: Upd(x, d, s));
  }

  lemma GivenUpd(o: Obj?, l: Cell, d: Layout, s: Layout, ls: set<Layout>)
    requires One(l) <= ls && InStep(ls) && d in ls && s in ls
    requires (o == null <==> l.None?) && (l.Some? ==> l.value.obj == o)
    requires forall x | x in ls :: Stored(Upd(x, d, s))
    ensures Given(o, UpdCell(l, Some(d), Some(s)))
  {
    CellUpd(l, d, s, ls);
    if l.Some? {
      assert l.value in ls;
    }
  }

  // deepMerge(d, s) as it is seen by all configs that may share objects with d.
  method StepLayers(dst: Obj, src: Obj, ghost ls: set<Layout>, ghost d: Layout, ghost s: Layout)
    requires InStep(ls) && d in ls && s in ls && d.Map? && d.obj == dst && s.Map? && s.obj == src
    requires forall x | x in ls :: Stored(x)
    modifies Objs(d)
    ensures forall x | x in ls :: Stored(Upd(x, d, s))
    ensures Stored(Merged(d, s)) && Stored(s)
  {
    hide Objs, Merged, Unshared, Sync, Touched, Stored, Upd;
    ghost var t := Touched(d, s);
    forall x | x in ls
      ensures StoredBut(x, t) && old(allocated(Objs(x)))
    {
      StoredButAny(x, t);
    }
    DeepMerge(dst, src, d, s);
    forall x | x in ls
      ensures Stored(Upd(x, d, s))
    {
      assert StoredBut(x, t);
      UpdStored(x, d, s);
    }
  }

  lemma HeldParts(base: Obj, layer: Obj?, server: Obj?, user: Obj?, agent: Obj?, copy: Obj?, c: Cells, y: Cell, z: Cell)
    requires Held(base, server, user, agent, c) && Given(layer, y) && Given(copy, z)
    ensures c.r.Some? && c.r.value.Map? && c.r.value.obj == base
    ensures layer != null ==> y.Some? && y.value.Map? && y.value.obj == layer
    ensures forall x | x in All(c) + One(y) + One(z) :: Stored(x)
  {
    hide Stored, InStep;
  }

  lemma MembersOf(c: Cells, y: Cell, z: Cell)
    requires c.r.Some? && y.Some? && InStep(All(c) + One(y) + One(z))
    ensures var ls := All(c) + One(y) + One(z);
      && c.r.value in ls && y.value in ls && (forall x | x in ls :: x.Map?)
      && One(c.s) <= ls && One(c.u) <= ls && One(c.a) <= ls && One(z) <= ls
  {
  }

  // A map object and its layout, whether or not it is stored.
  ghost predicate Roots(o: Obj?, l: Cell) {
    (o == null <==> l.None?) && (l.Some? ==> l.value.Map? && l.value.obj == o)
  }

  ghost predicate RootsOf(base: Obj, server: Obj?, user: Obj?, agent: Obj?, copy: Obj?, c: Cells, z: Cell) {
    Roots(base, c.r) && Roots(server, c.s) && Roots(user, c.u) && Roots(agent, c.a) && Roots(copy, z)
  }

  lemma HeldRoots(base: Obj, server: Obj?, user: Obj?, agent: Obj?, copy: Obj?, c: Cells, z: Cell)
    requires Held(base, server, user, agent, c) && Given(copy, z)
    ensures RootsOf(base, server, user, agent, copy, c, z)
  {
  }

  lemma HeldAfter(base: Obj, server: Obj?, user: Obj?, agent: Obj?, copy: Obj?, c: Cells, y: Cell, z: Cell)
    requires RootsOf(base, server, user, agent, copy, c, z) && y.Some? && InStep(All(c) + One(y) + One(z))
    requires forall x | x in All(c) + One(y) + One(z) :: x.Map? && Stored(Upd(x, c.r.value, y.value))
    requires Stored(Merged(c.r.value, y.value))
    ensures Held(base, server, user, agent, AbsorbCell(c, y)) && Given(copy, UpdCell(z, c.r, y))
  {
    hide Objs, Merged, Unshared, Sync, Upd, Stored;
    var ls, d, s := All(c) + One(y) + One(z), c.r.value, y.value;
    AbsorbInStep(c, y, z);
    MembersOf(c, y, z);
    hide InStep, All;
    GivenUpd(server, c.s, d, s, ls);
    GivenUpd(user, c.u, d, s, ls);
    GivenUpd(agent, c.a, d, s, ls);
    GivenUpd(copy, z, d, s, ls);
    InStepPart(All(AbsorbCell(c, y)), All(AbsorbCell(c, y)) + One(y) + One(UpdCell(z, c.r, y)));
  }

  // base = deepMerge(base, layer), with what becomes of the three layers' objects and of one more.
  method AbsorbLayer(base: Obj, layer: Obj?, server: Obj?, user: Obj?, agent: Obj?, copy: Obj?,
                     ghost c: Cells, ghost y: Cell, ghost z: Cell)
    returns (ghost after: Cells)
    requires Held(base, server, user, agent, c) && Given(layer, y) && Given(copy, z)
    requires InStep(All(c) + One(y) + One(z))
    modifies Feet(c.r)
    ensures after == AbsorbCell(c, y) && Held(base, server, user, agent, after) && Given(copy, UpdCell(z, c.r, y))
    ensures InStep(All(after) + One(y) + One(UpdCell(z, c.r, y)))
    ensures AllFeet(after) <= AllFeet(c) + Feet(y)
  {
    hide Objs, Merged, Unshared, Sync, Touched, Stored, Upd, AbsorbCell, InStep, All;
    HeldParts(base, layer, server, user, agent, copy, c, y, z);
    HeldRoots(base, server, user, agent, copy, c, z);
    after := AbsorbCell(c, y);
    if layer == null {
      AbsorbNothing(c);
    } else {
      AbsorbInStep(c, y, z);
      MembersOf(c, y, z);
      StepLayers(base, layer, All(c) + One(y) + One(z), c.r.value, y.value);
      HeldAfter(base, server, user, agent, copy, c, y, z);
    }
  }

  // ----- nil maps and cleaning -----

  // The tests of cleanNil on one value.
  predicate Kept(v: Value) {
    !(v.Plain? && (v.value.Nil? || v.value == Text("") || v.value == AnyList([]) || v.value == TextList([])))
  }

  // All values but nil, the empty string and empty lists of either type.
  predicate Substantial(v: Value) {
    match v
    case Ref(_) => true
    case Plain(Nil) => false
    case Plain(Text(text)) => |text| > 0
    case Plain(AnyList(items)) => |items| > 0
    case Plain(TextList(texts)) => |texts| > 0
    case Plain(Other(_)) => true
  }

  ghost predicate Tidied(entries: map<string, Value>, kept: map<string, Value>) {
    (forall k :: k in kept <==> k in entries && Substantial(entries[k])) &&
    forall k | k in kept :: kept[k] == entries[k]
  }

  // The loop of cleanNil.
  method CopyKept(m: Obj) returns (out: Obj)
    ensures fresh(out) && out.entries == map k | k in m.entries && Kept(m.entries[k]) :: m.entries[k]
    ensures Tidied(m.entries, out.entries)
  {
    out := new Obj();
    var rest := m.entries.Keys;
    while rest != {}
      invariant rest <= m.entries.Keys
      invariant out.entries == map k | k in m.entries && k !in rest && Kept(m.entries[k]) :: m.entries[k]
    {
      var k :| k in rest;
      if Kept(m.entries[k]) {
        out.entries := out.entries[k := m.entries[k]];
      }
      rest := rest - {k};
    }
  }

  // cleanNil: a new map over the same nested maps.
  method CleanNil(m: Obj?, ghost l: Cell) returns (out: Obj?, ghost y: Cell)
    requires Given(m, l)
    ensures Given(out, y) && Given(m, l) && (out == null <==> m == null)
    ensures out != null ==> fresh(out) && y == Some(Cleaned(out, l.value)) && Tidied(m.entries, out.entries)
  {
    if m == null {
      return null, None;
    }
    hide Objs;
    assert allocated(Objs(l.value));
    var o := CopyKept(m);
    out, y := o, Some(Cleaned(o, l.value));
    CleanedIs(o, l.value);
    forall k | k in l.value.m
      ensures Stored(l.value.m[k]) && m.entries[k] == ValueOf(l.value.m[k])
      ensures Kept(m.entries[k]) == Says(Config(l.value.m[k]))
    {
      StoredAt(l.value, k);
    }
  }

  lemma CleanedInStep(ls: set<Layout>, l: Layout, o: Obj)
    requires InStep(ls) && l in ls && forall x | x in ls :: o !in Objs(x)
    ensures InStep(ls + {Cleaned(o, l)})
  {
    var y := Cleaned(o, l);
    CleanedIs(o, l);
    forall k | k in y.m
      ensures Objs(y.m[k]) <= Objs(l) && l.obj !in Objs(y.m[k])
    {
      Under(l, k);
    }
    assert Unshared(y);
    forall x | x in ls
      ensures Sync(y, x) && Sync(x, y)
    {
      CleanedSync(l, x, o);
      SyncBack(y, x);
    }
  }

  lemma CleanedSync(l: Layout, x: Layout, o: Obj)
    requires l.Map? && x.Map? && Unshared(l) && Unshared(x) && Sync(l, x) && o !in Objs(x)
    ensures Sync(Cleaned(o, l), x)
  {
    var y := Cleaned(o, l);
    SyncBack(l, x);
    forall k | k in y.m
      ensures x.obj !in Objs(y.m[k])
    {
      SyncRoot(x, l, k);
    }
    forall j, k | j in y.m && k in x.m
      ensures j == k ==> Sync(y.m[j], x.m[k])
      ensures j != k ==> Objs(y.m[j]) !! Objs(x.m[k])
    {
      SyncBelow(l, x, j, k);
    }
  }

  // ----- MergeAgentConfig -----

  lemma CopyIrrelevant(z: Cell, c: Cells, l: Layout, o: Obj)
    requires l.Map? && IsNode(c.r)
    ensures UpdCell(z, c.r, CopyCell(Some(l), o)) == UpdCell(z, c.r, CleanCell(Some(l)))
  {
    var x, y := Cleaned(o, l), Cleaned(l.obj, l);
    assert x.m == y.m;
    if IsNode(z) {
      SameSource(z.value, c.r.value, x, y);
    }
    hide Upd, Cleaned;
  }

  lemma ResultFeet(c: Cells, l: Cell)
    requires IsNode(c.r) && !IsItem(l)
    ensures Feet(AbsorbCell(c, l).r) <= Feet(c.r) + Feet(l)
    ensures Feet(AbsorbCell(c, CleanCell(l)).r) <= Feet(c.r) + Feet(l)
  {
    if l.Some? {
      MergedObjs(c.r.value, l.value);
      CleanedIs(l.value.obj, l.value);
      MergedObjs(c.r.value, Cleaned(l.value.obj, l.value));
    }
  }

  lemma OutsideAll(c: Cells, o: Obj)
    requires o !in AllFeet(c)
    ensures forall x | x in All(c) :: o !in Objs(x)
  {
    hide Objs;
  }

  lemma HeldKinds(base: Obj, server: Obj?, user: Obj?, agent: Obj?, c: Cells)
    requires Held(base, server, user, agent, c)
    ensures IsNode(c.r) && !IsItem(c.s) && !IsItem(c.u) && !IsItem(c.a)
    ensures InStep(All(c) + One(c.s)) && One(c.u) <= All(c) && One(c.a) <= All(c)
  {
    assert All(c) + One(c.s) == All(c);
  }

  // base = deepMerge(base, cleanNil(user))
  method AbsorbUser(base: Obj, server: Obj?, user: Obj?, agent: Obj?, copy: Obj?, ghost c: Cells, ghost z: Cell)
    returns (ghost after: Cells)
    requires Held(base, server, user, agent, c) && Given(copy, z) && InStep(All(c) + One(z))
    modifies Feet(c.r)
    ensures after == AbsorbCell(c, CleanCell(c.u)) && Held(base, server, user, agent, after)
    ensures Given(copy, UpdCell(z, c.r, CleanCell(c.u)))
    ensures InStep(All(after) + One(UpdCell(z, c.r, CleanCell(c.u))))
    ensures Feet(after.r) <= Feet(c.r) + Feet(c.u)
  {
    hide Objs, Stored, AbsorbCell, InStep;
    assert allocated(AllFeet(c)) && allocated(Feet(z));
    HeldKinds(base, server, user, agent, c);
    var cleaned, y := CleanNil(user, c.u);
    ResultFeet(c, c.u);
    if cleaned == null {
      AbsorbNothing(c);
      after := c;
    } else {
      OutsideAll(c, cleaned);
      CleanedInStep(All(c) + One(z), c.u.value, cleaned);
      RootIrrelevant(c, c.u.value, cleaned);
      CopyIrrelevant(z, c, c.u.value, cleaned);
      hide CleanCell, All, Cleaned, UpdCell, CopyCell;
      assert All(c) + One(z) + {y.value} == All(c) + One(y) + One(z);
      after := AbsorbLayer(base, cleaned, server, user, agent, copy, c, y, z);
      InStepPart(All(after) + One(UpdCell(z, c.r, y)), All(after) + One(y) + One(UpdCell(z, c.r, y)));
    }
  }

  // Started on the defaults, or on a new map if there are none.
  ghost function Started(c: Cells, base: Obj): Cells {
    if c.r.Some? then c else Cells(Some(Map(base, map[])), c.s, c.u, c.a)
  }

  lemma BlankInStep(ls: set<Layout>, o: Obj)
    requires InStep(ls) && forall x | x in ls :: o !in Objs(x)
    ensures InStep(ls + {Map(o, map[])}) && Objs(Map(o, map[])) == {o}
  {
    var blank := Map(o, map[]);
    assert Objs(blank) == {o};
    forall x | x in ls
      ensures Sync(blank, x) && Sync(x, blank)
    {
      ApartSync(blank, x);
      SyncBack(blank, x);
    }
  }

  lemma StartedInStep(c: Cells, base: Obj)
    requires InStep(All(c)) && (c.r.None? ==> base !in AllFeet(c))
    ensures InStep(All(Started(c, base))) && Objs(Map(base, map[])) == {base}
  {
    if c.r.None? {
      OutsideAll(c, base);
      BlankInStep(All(c), base);
      hide Objs, Sync, InStep, AllFeet;
      assert All(Started(c, base)) == All(c) + {Map(base, map[])};
    } else {
      BlankInStep({}, base);
    }
  }

  lemma UserFeet(c: Cells)
    requires IsNode(c.r) && !IsItem(c.u) && !IsItem(c.s)
    ensures Feet(AbsorbCell(c, c.s).u) <= Feet(c.u) + Feet(c.s)
    ensures forall x: Cell | x == c.r || x == c.s || x == c.u || x == c.a :: One(x) <= All(c)
  {
    if c.u.Some? && c.s.Some? {
      UpdObjs(c.u.value, c.r.value, c.s.value);
    }
  }

  lemma HeldGiven(base: Obj, server: Obj?, user: Obj?, agent: Obj?, c: Cells)
    requires Held(base, server, user, agent, c)
    ensures Given(base, c.r) && Given(server, c.s) && Given(user, c.u) && Given(agent, c.a)
  {
  }

  lemma NoCopy(ls: set<Layout>)
    ensures Given(null, None) && ls + One(None) == ls
  {
  }

  // The agent's layer copied: one more config that shares maps with the others.
  method CopyAgent(base: Obj, server: Obj?, user: Obj?, agent: Obj, ghost c: Cells) returns (copy: Obj, ghost z: Cell)
    requires Held(base, server, user, agent, c)
    ensures Held(base, server, user, agent, c) && fresh(copy) && z == CopyCell(c.a, copy)
    ensures Given(copy, z) && InStep(All(c) + One(z))
  {
    hide Objs, Stored, InStep;
    assert allocated(AllFeet(c));
    HeldKinds(base, server, user, agent, c);
    var cleaned;
    cleaned, z := CleanNil(agent, c.a);
    copy := cleaned;
    OutsideAll(c, cleaned);
    CleanedInStep(All(c), c.a.value, cleaned);
  }

  // The three merges into the base; the agent's layer is copied before the user's is merged.
  method MergeLayers(base: Obj, server: Obj?, user: Obj?, agent: Obj, workspace: string, ghost c: Cells)
    returns (ghost after: Cells, ghost k: Obj)
    requires Held(base, server, user, agent, c)
    modifies Feet(c.r) + Feet(c.s) + Feet(c.u)
    ensures Held(base, server, user, agent, after) && fresh(k) && after == PassClean(c, workspace, k)
  {
    hide Objs, Stored, AbsorbCell, InStep, CleanCell, All, One, Held, Given, UpdCell, CopyCell;
    HeldKinds(base, server, user, agent, c);
    HeldGiven(base, server, user, agent, c);
    UserFeet(c);
    ResultFeet(c, c.s);
    NoCopy(All(c) + One(c.s));
    after := AbsorbLayer(base, server, server, user, agent, null, c, c.s, None);
    var copy, z := CopyAgent(base, server, user, agent, after);
    k := copy;
    if workspace == "" {
      ghost var y := UpdCell(z, after.r, CleanCell(after.u));
      after := AbsorbUser(base, server, user, agent, copy, after, z);
      z := y;
    }
    NoCopy(All(after) + One(z));
    after := AbsorbLayer(base, copy, server, user, agent, null, after, z, None);
  }

  // The layers may share maps at equal paths, as they do after an earlier call, or be the very same
  // map. The call overwrites the defaults and may overwrite nested maps of all layers: what becomes
  // of them is PassClean, k being the map object of the agent's cleaned layer.
  method MergeAgentConfig(defaults: Obj?, server: Obj?, user: Obj?, agent: Obj?, workspace: string, ghost c: Cells)
    returns (r: Obj?, ghost after: Cells, ghost k: Obj?)
    requires Given(defaults, c.r) && Given(server, c.s) && Given(user, c.u) && Given(agent, c.a) && InStep(All(c))
    modifies if agent == null then {} else Feet(c.r) + Feet(c.s) + Feet(c.u)
    ensures r == null <==> agent == null
    ensures r != null ==>
      && Held(r, server, user, agent, after) && k != null && fresh(k) && k != r
      && after == PassClean(Started(c, r), workspace, k)
      && if defaults == null then fresh(r) else r == defaults
    ensures r != null && ApartCells(Started(c, r)) ==>
      && Shown(after.r) == AgentConfig(Shown(c.r), Shown(c.s), Shown(c.u), Shown(c.a), workspace)
      && after.a == c.a
  {
    if agent == null {
      return null, c, null;
    }
    hide Objs, AbsorbCell, InStep, CleanCell, All;
    assert allocated(AllFeet(c));
    var base: Obj;
    if defaults == null {
      base := new Obj();
    } else {
      base := defaults;
    }
    StartedInStep(c, base);
    hide Stored;
    after, k := MergeLayers(base, server, user, agent, workspace, Started(c, base));
    r := base;
    if ApartCells(Started(c, base)) {
      ApartProper(Started(c, base));
      PassIsApart(Started(c, base), workspace, k);
      FirstCall(Started(c, base), workspace);
      StartedShown(c, base, workspace);
    }
  }

  lemma StartedShown(c: Cells, base: Obj, workspace: string)
    requires IsConfig(Shown(c.r)) && ApartCells(Started(c, base))
    ensures IsConfig(Shown(c.s)) && IsConfig(Shown(c.u)) && IsConfig(Shown(c.a))
    ensures var st := Started(c, base);
      AgentConfig(Shown(st.r), Shown(st.s), Shown(st.u), Shown(st.a), workspace) ==
      AgentConfig(Shown(c.r), Shown(c.s), Shown(c.u), Shown(c.a), workspace)
  {
    assert Config(Map(base, map[])) == Node(map[]);
    hide Layered, Layers, Objs;
  }

  lemma CellFeet(l: Cell, r: Cell, y: Cell)
    ensures Feet(UpdCell(l, r, y)) <= Feet(l) + Feet(y)
  {
    if IsNode(l) && IsNode(r) && IsNode(y) {
      UpdObjs(l.value, r.value, y.value);
    }
  }

  lemma StepFeet(c: Cells, y: Cell)
    requires Proper(c) && !IsItem(y)
    ensures AllFeet(AbsorbCell(c, y)) <= AllFeet(c) + Feet(y)
  {
    if y.Some? {
      MergedObjs(c.r.value, y.value);
    }
    hide Merged, Upd, Objs, UpdCell, Proper;
    CellFeet(c.s, c.r, y);
    CellFeet(c.u, c.r, y);
    CellFeet(c.a, c.r, y);
  }

  lemma CleanFeet(l: Cell)
    ensures Feet(CleanCell(l)) <= Feet(l)
  {
    if IsNode(l) {
      CleanedIs(l.value.obj, l.value);
    }
  }

  // A call adds no map object to what the layers and the result consist of.
  lemma PassFeet(c: Cells, workspace: string)
    requires Proper(c)
    ensures AllFeet(PassApart(c, workspace)) <= AllFeet(c)
  {
    hide AbsorbCell, Objs, Proper, CleanCell;
    var c1 := AbsorbCell(c, c.s);
    ProperKinds(c);
    StepFeet(c, c.s);
    SeenAbsorb(c, c.s, workspace);
    ProperKinds(c1);
    CleanFeet(c1.u);
    var c2 := if workspace == "" then AbsorbCell(c1, CleanCell(c1.u)) else c1;
    if workspace == "" {
      StepFeet(c1, CleanCell(c1.u));
      SeenAbsorb(c1, CleanCell(c1.u), workspace);
    }
    ProperKinds(c2);
    CleanFeet(c2.a);
    StepFeet(c2, CleanCell(c2.a));
  }

  // Two calls on the same objects, as two runs of an executor make them: the second finds the
  // defaults overwritten and maps of the layers shared.
  method ResolveTwice(defaults: Obj, server: Obj?, user: Obj?, agent: Obj, workspace: string, ghost c: Cells)
    returns (ghost one: Cells, ghost two: Cells)
    requires Held(defaults, server, user, agent, c) && ApartCells(c)
    modifies AllFeet(c)
    ensures Held(defaults, server, user, agent, two)
    ensures Shown(one.r) == AgentConfig(Shown(c.r), Shown(c.s), Shown(c.u), Shown(c.a), workspace)
    ensures Shown(two.r) == Shown(one.r) <==> Repeatable(Shown(c.r), Shown(c.s), Shown(c.u), Shown(c.a), workspace)
  {
    hide Objs, Stored, AbsorbCell, InStep, CleanCell, All, PassClean, PassApart, Repeatable, AgentConfig, ApartCells;
    FirstCall(c, workspace);
    SecondCall(c, workspace);
    ApartProper(c);
    SeenPass(c, workspace);
    PassFeet(c, workspace);
    var first, second;
    ghost var k;
    first, one, k := MergeAgentConfig(defaults, server, user, agent, workspace, c);
    PassIsApart(c, workspace, k);
    second, two, k := MergeAgentConfig(defaults, server, user, agent, workspace, one);
    PassIsApart(one, workspace, k);
  }
}
